/** What `update_status` does to the spreadsheet and the tracker: it has an effect
    exactly when the status is valid and the test case is located; it then writes the
    status and its colour in the located row, escalates only a Failed status, and never
    fails because the tracker did. The last three lemmas each hold under one write-back
    rule only. */
module StatusProperties {
  import opened Wrappers
  import opened Lists
  import opened Errors
  import opened Spreadsheet
  import opened Jira
  import opened TestCaseManager
  import opened EscalationProperties

  /** The update gets past validation and lookup. */
  predicate Locates(w: World, testCaseId: string, status: string) {
    status in ValidStatuses && FindTarget(Visible(w.sheet.grid), testCaseId).Ok?
  }

  function TargetOf(w: World, testCaseId: string, status: string): Target
    requires Locates(w, testCaseId, status)
  {
    FindTarget(Visible(w.sheet.grid), testCaseId).value
  }

  /** The header row the table is read with. */
  function Headers(w: World, testCaseId: string, status: string): seq<string>
    requires Locates(w, testCaseId, status)
  {
    Visible(w.sheet.grid)[0]
  }

  /** The sheet row (1-based) the escalator writes the issue URL to. */
  function Place(writeBack: WriteBack, rowNumber: nat): nat {
    if writeBack == ArgumentPosition then 2 else rowNumber
  }

  /** The table read from the sheet of `w` is not empty and its header row is `h`. */
  predicate ReadsHeader(w: World, h: seq<string>) {
    |Visible(w.sheet.grid)| > 0 && Visible(w.sheet.grid)[0] == h
  }

  /** What `RecordStatus` needs to know about where it acts: a data row, a status
      column among the ten read, and the header `h` of the table as read, in which
      the status column is found. */
  predicate Recordable(w: World, status: string, statusCol: nat, rowNumber: nat, h: seq<string>) {
    status in ValidStatuses && statusCol < ReadColumns && rowNumber >= 2 && IndexOf(h, "Status") == Some(statusCol)
    && ReadsHeader(w, h)
  }

  /** A located row is a data row, its status column is one of the ten read, and it
      was found through the header of the table as read. */
  lemma TargetFacts(w: World, testCaseId: string, status: string)
    requires Locates(w, testCaseId, status)
    ensures Recordable(w, status, TargetOf(w, testCaseId, status).statusCol, TargetOf(w, testCaseId, status).rowNumber,
                       Headers(w, testCaseId, status)) == true
  {
    TargetBounds(Visible(w.sheet.grid), testCaseId);
  }

  /** The status write and the colour step leave the header row, and so the
      escalator's lookups, as they were. */
  lemma HeaderAfterWrite(w: World, status: string, statusCol: nat, rowNumber: nat, h: seq<string>, sheetId: int)
    requires status in ValidStatuses && statusCol < 26 && rowNumber >= 2 && ReadsHeader(w, h) && |h| > 0
    ensures ReadsHeader(StatusColoured(StatusWritten(w, status, statusCol, rowNumber), sheetId, status, statusCol, rowNumber),
                        h)
  {
    var g' := StatusColoured(StatusWritten(w, status, statusCol, rowNumber), sheetId, status, statusCol, rowNumber).sheet.grid;
    GridAfterWrite(w, status, statusCol, rowNumber, sheetId);
    HeaderKept(w.sheet.grid, g', h, rowNumber - 1, statusCol, status);
  }

  /** The status write sets the status cell of the grid; the colour step leaves the grid. */
  lemma GridAfterWrite(w: World, status: string, statusCol: nat, rowNumber: nat, sheetId: int)
    requires status in ValidStatuses && statusCol < 26 && rowNumber >= 1
    ensures StatusColoured(StatusWritten(w, status, statusCol, rowNumber), sheetId, status, statusCol, rowNumber).sheet.grid
            == SetCell(w.sheet.grid, rowNumber - 1, statusCol, status)
  {
  }

  /** A target found in a table of rows of at most ten cells is a data row whose
      status column is among the ten. */
  lemma TargetBounds(values: seq<seq<string>>, testCaseId: string)
    requires FindTarget(values, testCaseId).Ok?
    requires forall r :: 0 <= r < |values| ==> |values[r]| <= ReadColumns
    ensures FindTarget(values, testCaseId).value.statusCol < ReadColumns
    ensures FindTarget(values, testCaseId).value.rowNumber >= 2
  {
    var t := FindTarget(values, testCaseId).value;
    assert t.statusCol < |values[0]|;
    assert LocateFrom(values, t.idCol, testCaseId, 1) == Found(t.rowNumber, t.row);
  }

  /** Setting a cell below the header row leaves the header row read back as it was. */
  lemma HeaderKept(g: seq<seq<string>>, g': seq<seq<string>>, h: seq<string>, r: nat, c: nat, v: string)
    requires g' == SetCell(g, r, c, v) && r >= 1 && |Visible(g)| > 0 && Visible(g)[0] == h && |h| > 0
    ensures |Visible(g')| > 0 && Visible(g')[0] == h
  {
    SameHeaderRow(g, g');
  }

  /** Once the row is located, `update_status` is the recording step on it. */
  lemma UpdateIsRecord(w: World, spreadsheetId: string, testCaseId: string, status: string, now: string,
                       writeBack: WriteBack)
    requires Locates(w, testCaseId, status)
    ensures var t := TargetOf(w, testCaseId, status);
            StatusUpdateAs(w, spreadsheetId, testCaseId, status, now, writeBack)
            == RecordStatus(w, spreadsheetId, testCaseId, status, now, writeBack, t.statusCol, t.rowNumber, t.row)
  {
  }

  /** The escalator's Jira column is never the Status column. */
  lemma JiraColumnIsNotStatus(headers: seq<string>, statusCol: nat)
    requires IndexOf(headers, "Status") == Some(statusCol) && ResolveColumns(headers).Ok?
    ensures ResolveColumns(headers).value.jira != statusCol
  {
  }

  /** The places list `update_status` passes along with its one row. */
  lemma PlacesOfOneRow(writeBack: WriteBack, rowNumber: nat, row: seq<string>)
    ensures (if writeBack == ArgumentPosition then ArgumentRows([row]) else [rowNumber]) == [Place(writeBack, rowNumber)]
  {
    if writeBack == ArgumentPosition {
      assert ArgumentRows([row])[0] == 2;
    }
  }

  /** The escalation of one row, with `cols` the outcome of resolving the header of
      the table the escalator reads, as the recording step sees it: the parts of the
      spreadsheet it never touches stay, it files at most one ticket, it raises exactly
      when the header does not resolve or the row is unreferenced and too short, and
      then changes nothing; it files a ticket exactly when the header resolves, the row
      is unreferenced and readable and the next reply carries an issue, and then the URL
      is in the Jira cell of sheet row `place`; no other Jira cell changes, and with no
      ticket filed the sheet is as it was. */
  ghost predicate EscalatedOnce(w: World, e: Run<seq<Issue>>, cols: Result<Columns, Exception>, row: seq<string>,
                                place: nat)
    requires place >= 1
  {
    SheetFrame(w.sheet, e.world.sheet)
    && w.tracker.tickets <= e.world.tracker.tickets && |e.world.tracker.tickets| <= |w.tracker.tickets| + 1
    && (e.result.Err? <==> cols.Err? || (!HasReference(row, cols.value) && !Readable(row, cols.value)))
    && (e.result.Err? ==> e.world == w)
    && (|e.world.tracker.tickets| == |w.tracker.tickets| + 1
        <==> cols.Ok? && !HasReference(row, cols.value) && Readable(row, cols.value)
             && |w.tracker.replies| > 0 && w.tracker.replies[0].Some?)
    && (cols.Ok? ==> OnlyCellsIn(w.sheet.grid, e.world.sheet.grid, cols.value.jira, [place]))
    && (|e.world.tracker.tickets| == |w.tracker.tickets| + 1 ==>
          cols.Ok? && CellAt(e.world.sheet.grid, place - 1, cols.value.jira)
                      == IssueUrl(e.world.tracker.tickets[|w.tracker.tickets|].key))
    && (|e.world.tracker.tickets| == |w.tracker.tickets| ==> e.world.sheet == w.sheet)
  }

  /** A run ending in one step of the loop body that meets `RowStepFacts` meets
      `EscalatedOnce`. */
  lemma OnceFromStep(w: World, e: Run<seq<Issue>>, cols: Columns, row: seq<string>, place: nat, step: Step)
    requires place >= 1 && e == StepRun(w, step) && RowStepFacts(w, cols, row, place, step)
    ensures EscalatedOnce(w, e, Ok(cols), row, place)
  {
  }

  /** A run that raises before any effect meets `EscalatedOnce`. */
  lemma OnceFromError(w: World, e: Run<seq<Issue>>, x: Exception, row: seq<string>, place: nat)
    requires place >= 1 && e.world == w && e.result.Err?
    ensures EscalatedOnce(w, e, Err(x), row, place)
  {
  }

  /** The escalator called with one row from a table with header `h` meets `EscalatedOnce`. */
  lemma EscalatedOnceHolds(w: World, spreadsheetId: string, row: seq<string>, place: nat, now: string, h: seq<string>)
    requires place >= 1 && ReadsHeader(w, h)
    ensures EscalatedOnce(w, Escalate(w, spreadsheetId, [row], [place], now), ResolveColumns(h), row, place) == true
  {
    assert ValidPlaces([row], [place]);
    match ResolveColumns(h)
    case Err(x) =>
      EscalateUnresolved(w, spreadsheetId, [row], [place], now);
      OnceFromError(w, Escalate(w, spreadsheetId, [row], [place], now), x, row, place);
    case Ok(cols) =>
      EscalateWith(w, spreadsheetId, cols, [row], [place], now);
      OnceResolved(w, spreadsheetId, cols, row, place, now, Escalate(w, spreadsheetId, [row], [place], now));
  }

  /** The one-row escalation after the status write and the colour step meets
      `EscalatedOnce` with the header as read before the write; neither step touches
      the tracker. */
  lemma OnceAfterWrite(w: World, w2: World, spreadsheetId: string, status: string, now: string, statusCol: nat,
                       rowNumber: nat, row: seq<string>, h: seq<string>, place: nat, sheetId: int)
    requires Recordable(w, status, statusCol, rowNumber, h) && place >= 1
    requires w2 == StatusColoured(StatusWritten(w, status, statusCol, rowNumber), sheetId, status, statusCol, rowNumber)
    ensures w2.tracker == w.tracker
    ensures EscalatedOnce(w2, Escalate(w2, spreadsheetId, [row], [place], now), ResolveColumns(h), row, place) == true
  {
    assert statusCol < |h|;
    HeaderAfterWrite(w, status, statusCol, rowNumber, h, sheetId);
    EscalatedOnceHolds(w2, spreadsheetId, row, place, now, h);
  }

  /** The loop over the one row, once the header has resolved to `cols`, meets
      `EscalatedOnce`. */
  lemma OnceResolved(w: World, spreadsheetId: string, cols: Columns, row: seq<string>, place: nat, now: string,
                     e: Run<seq<Issue>>)
    requires cols.jira < 26 && place >= 1 && e == EscalateFrom(w, spreadsheetId, cols, [row], [place], now, 0, [])
    ensures EscalatedOnce(w, e, Ok(cols), row, place)
  {
    EscalateFromSingle(w, spreadsheetId, cols, row, place, now);
    EscalateRowOnce(w, spreadsheetId, cols, row, place, now);
    OnceFromStep(w, e, cols, row, place, EscalateRow(w, spreadsheetId, cols, row, place, now, []));
  }

  /** The sheet `s'` the recording step leaves on `s`: the status write is logged
      first, the status cell holds the status, the sheet list and the overview are as
      they were, and every cell that changed is the status cell or a cell of sheet row
      `place` outside the Status column. */
  ghost predicate StatusWrittenIn(s: SheetState, s': SheetState, status: string, statusCol: nat, rowNumber: nat,
                                  place: nat)
    requires statusCol < 26 && rowNumber >= 1
  {
    |s'.log| > |s.log| && s'.log[..|s.log|] == s.log
    && s'.log[|s.log|] == CellWrite(A1(TestCasesTab, statusCol, rowNumber), status)
    && CellAt(s'.grid, rowNumber - 1, statusCol) == status
    && s'.tabs == s.tabs && s'.overview == s.overview
    && forall r: nat, c: nat :: CellAt(s'.grid, r, c) != CellAt(s.grid, r, c) ==>
         (r == rowNumber - 1 && c == statusCol) || (r + 1 == place && c != statusCol)
  }

  /** The status write, a step that changes neither grid nor log, and a step that
      changes only one column other than the Status column at sheet row `place`. */
  lemma WrittenThrough(s: SheetState, s2: SheetState, s3: SheetState, status: string, statusCol: nat,
                       rowNumber: nat, place: nat, jira: nat)
    requires statusCol < 26 && rowNumber >= 1 && jira != statusCol
    requires s2.grid == WriteCell(s, statusCol, rowNumber, status).grid
    requires s2.log == WriteCell(s, statusCol, rowNumber, status).log
    requires s2.tabs == s.tabs && s2.overview == s.overview
    requires SheetFrame(s2, s3) && OnlyCellsIn(s2.grid, s3.grid, jira, [place])
    ensures StatusWrittenIn(s, s3, status, statusCol, rowNumber, place)
  {
    var write := CellWrite(A1(TestCasesTab, statusCol, rowNumber), status);
    assert s2.log == s.log + [write];
    assert s3.log[..|s2.log|] == s2.log;
    assert s3.log[..|s.log|] == s2.log[..|s.log|];
    assert s3.log[|s.log|] == s2.log[|s.log|];
    assert CellAt(s2.grid, rowNumber - 1, statusCol) == status;
    forall r: nat, c: nat | CellAt(s3.grid, r, c) != CellAt(s.grid, r, c)
      ensures (r == rowNumber - 1 && c == statusCol) || (r + 1 == place && c != statusCol)
    {
      if CellAt(s3.grid, r, c) != CellAt(s2.grid, r, c) {
        assert c == jira && r + 1 in [place];
      }
    }
  }

  /** A step that changes nothing meets the last step of `WrittenThrough`. */
  lemma NoChange(s: SheetState, col: nat, place: nat)
    ensures SheetFrame(s, s) && OnlyCellsIn(s.grid, s.grid, col, [place])
  {
  }

  /** The recording step in its three cases: no Test Cases sheet, a status other than
      Failed, and Failed, escalating the one row with its URL going to `Place`. */
  lemma RecordSteps(w: World, spreadsheetId: string, testCaseId: string, status: string, now: string,
                    writeBack: WriteBack, statusCol: nat, rowNumber: nat, row: seq<string>)
    requires status in ValidStatuses && statusCol < 26 && rowNumber >= 1
    ensures var run := RecordStatus(w, spreadsheetId, testCaseId, status, now, writeBack, statusCol, rowNumber, row);
            var w1 := StatusWritten(w, status, statusCol, rowNumber);
            var ids := SheetIds(w.sheet.tabs);
            if TestCasesTab !in ids then run == Run(w1, Err(KeyMissing(TestCasesTab)))
            else
              var w2 := StatusColoured(w1, ids[TestCasesTab], status, statusCol, rowNumber);
              if status != Failed then run == Run(w2, Ok(Confirmation(testCaseId, status)))
              else
                var e := Escalate(w2, spreadsheetId, [row], [Place(writeBack, rowNumber)], now);
                run.world == e.world && (run.result.Err? <==> e.result.Err?)
                && (e.result.Err? ==> run.result.error == e.result.error)
                && (run.result.Ok? ==> run.result.value == Confirmation(testCaseId, status))
  {
    PlacesOfOneRow(writeBack, rowNumber, row);
  }

  /** The sheet after the recording step, whatever happens after the status write:
      `StatusWrittenIn` with the row the issue URL goes to, and only the status write
      when no ticket is filed. */
  lemma RecordFrame(w: World, spreadsheetId: string, testCaseId: string, status: string, now: string,
                    writeBack: WriteBack, statusCol: nat, rowNumber: nat, row: seq<string>, h: seq<string>)
    requires Recordable(w, status, statusCol, rowNumber, h)
    ensures var s' := RecordStatus(w, spreadsheetId, testCaseId, status, now, writeBack, statusCol, rowNumber, row).world.sheet;
            StatusWrittenIn(w.sheet, s', status, statusCol, rowNumber, Place(writeBack, rowNumber))
    ensures |RecordStatus(w, spreadsheetId, testCaseId, status, now, writeBack, statusCol, rowNumber, row).world.tracker.tickets|
            == |w.tracker.tickets| ==>
            OnlyStatusWritten(w.sheet, RecordStatus(w, spreadsheetId, testCaseId, status, now, writeBack, statusCol,
                                                    rowNumber, row).world.sheet, status, statusCol, rowNumber)
  {
    RecordNoTicket(w, spreadsheetId, testCaseId, status, now, writeBack, statusCol, rowNumber, row, h);
    RecordSteps(w, spreadsheetId, testCaseId, status, now, writeBack, statusCol, rowNumber, row);
    var place := Place(writeBack, rowNumber);
    var w1 := StatusWritten(w, status, statusCol, rowNumber);
    var ids := SheetIds(w.sheet.tabs);
    if TestCasesTab !in ids {
      NoChange(w1.sheet, statusCol + 1, place);
      WrittenThrough(w.sheet, w1.sheet, w1.sheet, status, statusCol, rowNumber, place, statusCol + 1);
    } else {
      var w2 := StatusColoured(w1, ids[TestCasesTab], status, statusCol, rowNumber);
      if status != Failed {
        NoChange(w2.sheet, statusCol + 1, place);
        WrittenThrough(w.sheet, w2.sheet, w2.sheet, status, statusCol, rowNumber, place, statusCol + 1);
      } else {
        EscalationFrame(w, w2, spreadsheetId, status, now, statusCol, rowNumber, row, h, place, ids[TestCasesTab]);
      }
    }
  }

  /** The sheet after the status write, the colour step and the escalation of the row
      with its URL going to sheet row `place`; filing no ticket, only the status is written. */
  lemma EscalationFrame(w: World, w2: World, spreadsheetId: string, status: string, now: string, statusCol: nat,
                        rowNumber: nat, row: seq<string>, h: seq<string>, place: nat, sheetId: int)
    requires Recordable(w, status, statusCol, rowNumber, h) && place >= 1
    requires w2 == StatusColoured(StatusWritten(w, status, statusCol, rowNumber), sheetId, status, statusCol, rowNumber)
    ensures StatusWrittenIn(w.sheet, Escalate(w2, spreadsheetId, [row], [place], now).world.sheet, status, statusCol,
                            rowNumber, place)
    ensures |Escalate(w2, spreadsheetId, [row], [place], now).world.tracker.tickets| == |w.tracker.tickets| ==>
            OnlyStatusWritten(w.sheet, Escalate(w2, spreadsheetId, [row], [place], now).world.sheet, status, statusCol,
                              rowNumber)
  {
    EscalationWritten(w, w2, spreadsheetId, status, now, statusCol, rowNumber, row, h, place, sheetId);
    EscalationNoTicket(w, w2, spreadsheetId, status, now, statusCol, rowNumber, row, h, place, sheetId);
  }

  /** The first half of `EscalationFrame`: the status write stays and every other
      change is in row `place`. */
  lemma EscalationWritten(w: World, w2: World, spreadsheetId: string, status: string, now: string, statusCol: nat,
                          rowNumber: nat, row: seq<string>, h: seq<string>, place: nat, sheetId: int)
    requires Recordable(w, status, statusCol, rowNumber, h) && place >= 1
    requires w2 == StatusColoured(StatusWritten(w, status, statusCol, rowNumber), sheetId, status, statusCol, rowNumber)
    ensures StatusWrittenIn(w.sheet, Escalate(w2, spreadsheetId, [row], [place], now).world.sheet, status, statusCol,
                            rowNumber, place)
  {
    var e := Escalate(w2, spreadsheetId, [row], [place], now);
    OnceAfterWrite(w, w2, spreadsheetId, status, now, statusCol, rowNumber, row, h, place, sheetId);
    if ResolveColumns(h).Ok? {
      JiraColumnIsNotStatus(h, statusCol);
      WrittenThrough(w.sheet, w2.sheet, e.world.sheet, status, statusCol, rowNumber, place, ResolveColumns(h).value.jira);
    } else {
      NoChange(w2.sheet, statusCol + 1, place);
      WrittenThrough(w.sheet, w2.sheet, e.world.sheet, status, statusCol, rowNumber, place, statusCol + 1);
    }
  }

  /** Going from `s` to `s'` the only write is the status write: the grid and the log
      are those that writing the status leaves, and the sheet list and overview stay. */
  predicate OnlyStatusWritten(s: SheetState, s': SheetState, status: string, statusCol: nat, rowNumber: nat)
    requires statusCol < 26 && rowNumber >= 1
  {
    s'.grid == WriteCell(s, statusCol, rowNumber, status).grid && s'.log == WriteCell(s, statusCol, rowNumber, status).log
    && s'.tabs == s.tabs && s'.overview == s.overview
  }

  /** A recording step that files no ticket writes nothing but the status. */
  lemma RecordNoTicket(w: World, spreadsheetId: string, testCaseId: string, status: string, now: string,
                       writeBack: WriteBack, statusCol: nat, rowNumber: nat, row: seq<string>, h: seq<string>)
    requires Recordable(w, status, statusCol, rowNumber, h)
    ensures |RecordStatus(w, spreadsheetId, testCaseId, status, now, writeBack, statusCol, rowNumber, row).world.tracker.tickets|
            == |w.tracker.tickets| ==>
            OnlyStatusWritten(w.sheet, RecordStatus(w, spreadsheetId, testCaseId, status, now, writeBack, statusCol,
                                                    rowNumber, row).world.sheet, status, statusCol, rowNumber)
  {
    RecordSteps(w, spreadsheetId, testCaseId, status, now, writeBack, statusCol, rowNumber, row);
    var ids := SheetIds(w.sheet.tabs);
    if TestCasesTab in ids && status == Failed {
      var w2 := StatusColoured(StatusWritten(w, status, statusCol, rowNumber), ids[TestCasesTab], status, statusCol, rowNumber);
      EscalationNoTicket(w, w2, spreadsheetId, status, now, statusCol, rowNumber, row, h, Place(writeBack, rowNumber),
                         ids[TestCasesTab]);
    }
  }

  /** The status write, the colour step and a one-row escalation that files no ticket
      write nothing but the status. */
  lemma EscalationNoTicket(w: World, w2: World, spreadsheetId: string, status: string, now: string, statusCol: nat,
                           rowNumber: nat, row: seq<string>, h: seq<string>, place: nat, sheetId: int)
    requires Recordable(w, status, statusCol, rowNumber, h) && place >= 1
    requires w2 == StatusColoured(StatusWritten(w, status, statusCol, rowNumber), sheetId, status, statusCol, rowNumber)
    ensures |Escalate(w2, spreadsheetId, [row], [place], now).world.tracker.tickets| == |w.tracker.tickets| ==>
            OnlyStatusWritten(w.sheet, Escalate(w2, spreadsheetId, [row], [place], now).world.sheet, status, statusCol,
                              rowNumber)
  {
    OnceAfterWrite(w, w2, spreadsheetId, status, now, statusCol, rowNumber, row, h, place, sheetId);
  }

  /** The colour step sets the status's colour on the status cell and nothing else. */
  lemma ColourStep(w: World, sheetId: int, status: string, statusCol: nat, rowNumber: nat)
    requires status in ValidStatuses
    ensures StatusColoured(w, sheetId, status, statusCol, rowNumber)
            == w.(sheet := w.sheet.(colors := w.sheet.colors[GridCell(sheetId, rowNumber - 1, statusCol) := StatusColors[status]]))
  {
  }

  /** The colours of `s` with the status's colour on the status cell in sheet row
      `rowNumber`, column `statusCol` of the Test Cases sheet, when that sheet exists. */
  function ColoursAfter(s: SheetState, status: string, statusCol: nat, rowNumber: nat): map<GridCell, Color>
    requires status in ValidStatuses && rowNumber >= 1
  {
    var ids := SheetIds(s.tabs);
    if TestCasesTab in ids then s.colors[GridCell(ids[TestCasesTab], rowNumber - 1, statusCol) := StatusColors[status]]
    else s.colors
  }

  /** The colours after the recording step: the status's colour on the status cell
      when the Test Cases sheet is found, no change otherwise. */
  lemma RecordColours(w: World, spreadsheetId: string, testCaseId: string, status: string, now: string,
                      writeBack: WriteBack, statusCol: nat, rowNumber: nat, row: seq<string>, h: seq<string>)
    requires Recordable(w, status, statusCol, rowNumber, h)
    ensures RecordStatus(w, spreadsheetId, testCaseId, status, now, writeBack, statusCol, rowNumber, row).world.sheet.colors
            == ColoursAfter(w.sheet, status, statusCol, rowNumber)
  {
    RecordSteps(w, spreadsheetId, testCaseId, status, now, writeBack, statusCol, rowNumber, row);
    var w1 := StatusWritten(w, status, statusCol, rowNumber);
    var ids := SheetIds(w.sheet.tabs);
    if TestCasesTab in ids {
      var w2 := StatusColoured(w1, ids[TestCasesTab], status, statusCol, rowNumber);
      ColourStep(w1, ids[TestCasesTab], status, statusCol, rowNumber);
      if status == Failed {
        var place := Place(writeBack, rowNumber);
        OnceAfterWrite(w, w2, spreadsheetId, status, now, statusCol, rowNumber, row, h, place, ids[TestCasesTab]);
      }
    }
  }

  /** The recording step reaches the tracker only for Failed and files at most one ticket. */
  lemma RecordTracker(w: World, spreadsheetId: string, testCaseId: string, status: string, now: string,
                      writeBack: WriteBack, statusCol: nat, rowNumber: nat, row: seq<string>, h: seq<string>)
    requires Recordable(w, status, statusCol, rowNumber, h)
    ensures var t' := RecordStatus(w, spreadsheetId, testCaseId, status, now, writeBack, statusCol, rowNumber, row).world.tracker;
            w.tracker.tickets <= t'.tickets && |t'.tickets| <= |w.tracker.tickets| + 1
            && (status != Failed || TestCasesTab !in SheetIds(w.sheet.tabs) ==> t' == w.tracker)
  {
    RecordSteps(w, spreadsheetId, testCaseId, status, now, writeBack, statusCol, rowNumber, row);
    var ids := SheetIds(w.sheet.tabs);
    if TestCasesTab in ids && status == Failed {
      var w1 := StatusWritten(w, status, statusCol, rowNumber);
      var w2 := StatusColoured(w1, ids[TestCasesTab], status, statusCol, rowNumber);
      OnceAfterWrite(w, w2, spreadsheetId, status, now, statusCol, rowNumber, row, h, Place(writeBack, rowNumber),
                     ids[TestCasesTab]);
    }
  }

  /** The recording step of a Failed status with the Test Cases sheet present: it
      raises exactly when the escalator cannot resolve the header `h` or meets the
      row unreferenced and too short to read, and files a ticket exactly when the
      header resolves, the row has no reference and can be read, and the tracker's
      next reply carries an issue; the issue's URL then sits in the Jira cell of the
      row `writeBack` names, and no other Jira cell changes. */
  lemma RecordFailure(w: World, spreadsheetId: string, testCaseId: string, now: string,
                      writeBack: WriteBack, statusCol: nat, rowNumber: nat, row: seq<string>, h: seq<string>)
    requires Recordable(w, Failed, statusCol, rowNumber, h) && TestCasesTab in SheetIds(w.sheet.tabs)
    ensures var run := RecordStatus(w, spreadsheetId, testCaseId, Failed, now, writeBack, statusCol, rowNumber, row);
            run.result.Err? <==> ResolveColumns(h).Err?
                                 || (!HasReference(row, ResolveColumns(h).value) && !Readable(row, ResolveColumns(h).value))
    ensures var run := RecordStatus(w, spreadsheetId, testCaseId, Failed, now, writeBack, statusCol, rowNumber, row);
            |run.world.tracker.tickets| == |w.tracker.tickets| + 1
            <==> ResolveColumns(h).Ok? && !HasReference(row, ResolveColumns(h).value) && Readable(row, ResolveColumns(h).value)
                 && |w.tracker.replies| > 0 && w.tracker.replies[0].Some?
  {
    RecordSteps(w, spreadsheetId, testCaseId, Failed, now, writeBack, statusCol, rowNumber, row);
    var ids := SheetIds(w.sheet.tabs);
    var w1 := StatusWritten(w, Failed, statusCol, rowNumber);
    var w2 := StatusColoured(w1, ids[TestCasesTab], Failed, statusCol, rowNumber);
    OnceAfterWrite(w, w2, spreadsheetId, Failed, now, statusCol, rowNumber, row, h, Place(writeBack, rowNumber),
                   ids[TestCasesTab]);
  }

  /** Going from `w` to `w'` a ticket was filed, the header `h` resolves, and the
      first new ticket's URL is in the Jira cell of sheet row `sheetRow`. */
  ghost predicate UrlIn(w: World, w': World, sheetRow: nat, h: seq<string>)
    requires |w'.tracker.tickets| > |w.tracker.tickets| && sheetRow >= 1
  {
    ResolveColumns(h).Ok?
    && CellAt(w'.sheet.grid, sheetRow - 1, ResolveColumns(h).value.jira) == IssueUrl(w'.tracker.tickets[|w.tracker.tickets|].key)
  }

  /** A Failed recording step that files a ticket puts the issue's URL in the Jira cell
      of sheet row `Place(writeBack, rowNumber)` and leaves the Jira cell of every other
      row as it was. */
  lemma RecordUrl(w: World, spreadsheetId: string, testCaseId: string, now: string,
                  writeBack: WriteBack, statusCol: nat, rowNumber: nat, row: seq<string>, h: seq<string>)
    requires Recordable(w, Failed, statusCol, rowNumber, h) && TestCasesTab in SheetIds(w.sheet.tabs)
    requires |RecordStatus(w, spreadsheetId, testCaseId, Failed, now, writeBack, statusCol, rowNumber, row).world.tracker.tickets|
             > |w.tracker.tickets|
    ensures UrlIn(w, RecordStatus(w, spreadsheetId, testCaseId, Failed, now, writeBack, statusCol, rowNumber, row).world,
                  Place(writeBack, rowNumber), h)
    ensures forall r: nat :: r + 1 != Place(writeBack, rowNumber) ==>
              CellAt(RecordStatus(w, spreadsheetId, testCaseId, Failed, now, writeBack, statusCol, rowNumber, row).world.sheet.grid,
                     r, ResolveColumns(h).value.jira)
              == CellAt(w.sheet.grid, r, ResolveColumns(h).value.jira)
  {
    RecordSteps(w, spreadsheetId, testCaseId, Failed, now, writeBack, statusCol, rowNumber, row);
    RecordFrame(w, spreadsheetId, testCaseId, Failed, now, writeBack, statusCol, rowNumber, row, h);
    var ids := SheetIds(w.sheet.tabs);
    var w1 := StatusWritten(w, Failed, statusCol, rowNumber);
    var w2 := StatusColoured(w1, ids[TestCasesTab], Failed, statusCol, rowNumber);
    OnceAfterWrite(w, w2, spreadsheetId, Failed, now, statusCol, rowNumber, row, h, Place(writeBack, rowNumber),
                   ids[TestCasesTab]);
    JiraColumnIsNotStatus(h, statusCol);
  }

  /** `update_status` changes nothing exactly when it raises before locating a row:
      for an invalid status, an empty table, a missing ID or Status header, a short
      row met by the scan or an absent id; the exception is the one raised there. */
  lemma NoEffectUnlessLocated(w: World, spreadsheetId: string, testCaseId: string, status: string, now: string,
                              writeBack: WriteBack)
    ensures var run := StatusUpdateAs(w, spreadsheetId, testCaseId, status, now, writeBack);
            run.world == w <==> !Locates(w, testCaseId, status)
    ensures status !in ValidStatuses ==>
            StatusUpdateAs(w, spreadsheetId, testCaseId, status, now, writeBack).result == Err(InvalidStatus(status))
    ensures status in ValidStatuses && FindTarget(Visible(w.sheet.grid), testCaseId).Err? ==>
            StatusUpdateAs(w, spreadsheetId, testCaseId, status, now, writeBack).result
            == Err(FindTarget(Visible(w.sheet.grid), testCaseId).error)
  {
    if Locates(w, testCaseId, status) {
      var t := TargetOf(w, testCaseId, status);
      TargetFacts(w, testCaseId, status);
      UpdateIsRecord(w, spreadsheetId, testCaseId, status, now, writeBack);
      RecordFrame(w, spreadsheetId, testCaseId, status, now, writeBack, t.statusCol, t.rowNumber, t.row,
                  Headers(w, testCaseId, status));
    }
  }

  /** Once `update_status` has located the row, whatever happens next: the status
      write is the first thing logged, the status cell holds the status, and every other
      changed cell lies outside the Status column in the row the issue URL goes to; an
      update that files no ticket writes nothing but the status. */
  lemma StatusRecorded(w: World, spreadsheetId: string, testCaseId: string, status: string, now: string,
                       writeBack: WriteBack)
    requires Locates(w, testCaseId, status)
    ensures var t := TargetOf(w, testCaseId, status);
            var s' := StatusUpdateAs(w, spreadsheetId, testCaseId, status, now, writeBack).world.sheet;
            StatusWrittenIn(w.sheet, s', status, t.statusCol, t.rowNumber, Place(writeBack, t.rowNumber))
    ensures |StatusUpdateAs(w, spreadsheetId, testCaseId, status, now, writeBack).world.tracker.tickets| == |w.tracker.tickets|
            ==> OnlyStatusWritten(w.sheet, StatusUpdateAs(w, spreadsheetId, testCaseId, status, now, writeBack).world.sheet,
                                  status, TargetOf(w, testCaseId, status).statusCol, TargetOf(w, testCaseId, status).rowNumber)
  {
    var t := TargetOf(w, testCaseId, status);
    TargetFacts(w, testCaseId, status);
    UpdateIsRecord(w, spreadsheetId, testCaseId, status, now, writeBack);
    RecordFrame(w, spreadsheetId, testCaseId, status, now, writeBack, t.statusCol, t.rowNumber, t.row,
                Headers(w, testCaseId, status));
    RecordNoTicket(w, spreadsheetId, testCaseId, status, now, writeBack, t.statusCol, t.rowNumber, t.row,
                   Headers(w, testCaseId, status));
  }

  /** Once `update_status` has located the row, the status's colour is on the status
      cell when the Test Cases sheet is found, and no colour changes otherwise. */
  lemma StatusColourSet(w: World, spreadsheetId: string, testCaseId: string, status: string, now: string,
                        writeBack: WriteBack)
    requires Locates(w, testCaseId, status)
    ensures StatusUpdateAs(w, spreadsheetId, testCaseId, status, now, writeBack).world.sheet.colors
            == ColoursAfter(w.sheet, status, TargetOf(w, testCaseId, status).statusCol, TargetOf(w, testCaseId, status).rowNumber)
  {
    var t := TargetOf(w, testCaseId, status);
    TargetFacts(w, testCaseId, status);
    UpdateIsRecord(w, spreadsheetId, testCaseId, status, now, writeBack);
    RecordColours(w, spreadsheetId, testCaseId, status, now, writeBack, t.statusCol, t.rowNumber, t.row,
                  Headers(w, testCaseId, status));
  }

  /** Only a Failed status reaches the tracker and at most one ticket is filed; a
      missing Test Cases sheet raises KeyError after the status write; any other
      status is confirmed once coloured. */
  lemma EscalationOnlyOnFailure(w: World, spreadsheetId: string, testCaseId: string, status: string, now: string,
                                writeBack: WriteBack)
    ensures var run := StatusUpdateAs(w, spreadsheetId, testCaseId, status, now, writeBack);
            w.tracker.tickets <= run.world.tracker.tickets && |run.world.tracker.tickets| <= |w.tracker.tickets| + 1
    ensures var run := StatusUpdateAs(w, spreadsheetId, testCaseId, status, now, writeBack);
            status != Failed ==> run.world.tracker == w.tracker
    ensures var run := StatusUpdateAs(w, spreadsheetId, testCaseId, status, now, writeBack);
            Locates(w, testCaseId, status) && TestCasesTab !in SheetIds(w.sheet.tabs) ==>
              run.result == Err(KeyMissing(TestCasesTab)) && run.world.tracker == w.tracker
    ensures var run := StatusUpdateAs(w, spreadsheetId, testCaseId, status, now, writeBack);
            Locates(w, testCaseId, status) && TestCasesTab in SheetIds(w.sheet.tabs) && status != Failed ==>
              run.result == Ok(Confirmation(testCaseId, status))
  {
    if Locates(w, testCaseId, status) {
      var t := TargetOf(w, testCaseId, status);
      UpdateIsRecord(w, spreadsheetId, testCaseId, status, now, writeBack);
      TargetFacts(w, testCaseId, status);
      RecordSteps(w, spreadsheetId, testCaseId, status, now, writeBack, t.statusCol, t.rowNumber, t.row);
      RecordTracker(w, spreadsheetId, testCaseId, status, now, writeBack, t.statusCol, t.rowNumber, t.row,
                    Headers(w, testCaseId, status));
    }
  }

  /** A located Failed update with the Test Cases sheet present raises exactly when the
      escalator cannot resolve the table's headers or finds the row unreferenced and
      too short to read: a tracker that fails, or has no reply left, never fails the
      update. It files a ticket exactly when the headers resolve, the row has no
      reference and can be read, and the tracker's next reply carries an issue. */
  lemma FailureOutcome(w: World, spreadsheetId: string, testCaseId: string, now: string, writeBack: WriteBack)
    requires Locates(w, testCaseId, Failed) && TestCasesTab in SheetIds(w.sheet.tabs)
    ensures var run := StatusUpdateAs(w, spreadsheetId, testCaseId, Failed, now, writeBack);
            var t := TargetOf(w, testCaseId, Failed);
            var h := Headers(w, testCaseId, Failed);
            run.result.Err? <==> ResolveColumns(h).Err?
                                 || (!HasReference(t.row, ResolveColumns(h).value) && !Readable(t.row, ResolveColumns(h).value))
    ensures var run := StatusUpdateAs(w, spreadsheetId, testCaseId, Failed, now, writeBack);
            run.result.Ok? ==> run.result.value == Confirmation(testCaseId, Failed)
    ensures var run := StatusUpdateAs(w, spreadsheetId, testCaseId, Failed, now, writeBack);
            var t := TargetOf(w, testCaseId, Failed);
            var h := Headers(w, testCaseId, Failed);
            |run.world.tracker.tickets| == |w.tracker.tickets| + 1
            <==> ResolveColumns(h).Ok? && !HasReference(t.row, ResolveColumns(h).value) && Readable(t.row, ResolveColumns(h).value)
                 && |w.tracker.replies| > 0 && w.tracker.replies[0].Some?
  {
    var t := TargetOf(w, testCaseId, Failed);
    UpdateIsRecord(w, spreadsheetId, testCaseId, Failed, now, writeBack);
    TargetFacts(w, testCaseId, Failed);
    RecordSteps(w, spreadsheetId, testCaseId, Failed, now, writeBack, t.statusCol, t.rowNumber, t.row);
    RecordFailure(w, spreadsheetId, testCaseId, now, writeBack, t.statusCol, t.rowNumber, t.row, Headers(w, testCaseId, Failed));
  }

  /** As written, the issue filed for a located Failed test case has its URL written to
      sheet row 2, and the Jira cell of the test case's own row, when that is another
      row, keeps what it held. */
  lemma UrlAsWritten(w: World, spreadsheetId: string, testCaseId: string, now: string)
    requires Locates(w, testCaseId, Failed) && TestCasesTab in SheetIds(w.sheet.tabs)
    requires |StatusUpdateAs(w, spreadsheetId, testCaseId, Failed, now, ArgumentPosition).world.tracker.tickets|
             > |w.tracker.tickets|
    ensures UrlIn(w, StatusUpdateAs(w, spreadsheetId, testCaseId, Failed, now, ArgumentPosition).world, 2,
                  Headers(w, testCaseId, Failed))
    ensures TargetOf(w, testCaseId, Failed).rowNumber != 2 ==>
              CellAt(StatusUpdateAs(w, spreadsheetId, testCaseId, Failed, now, ArgumentPosition).world.sheet.grid,
                     TargetOf(w, testCaseId, Failed).rowNumber - 1, ResolveColumns(Headers(w, testCaseId, Failed)).value.jira)
              == CellAt(w.sheet.grid, TargetOf(w, testCaseId, Failed).rowNumber - 1,
                        ResolveColumns(Headers(w, testCaseId, Failed)).value.jira)
  {
    var t := TargetOf(w, testCaseId, Failed);
    UpdateIsRecord(w, spreadsheetId, testCaseId, Failed, now, ArgumentPosition);
    TargetFacts(w, testCaseId, Failed);
    RecordUrl(w, spreadsheetId, testCaseId, now, ArgumentPosition, t.statusCol, t.rowNumber, t.row,
              Headers(w, testCaseId, Failed));
  }

  /** With the URL written back to the located row, the issue filed lands in that row's
      Jira cell. */
  lemma UrlAtLocatedRow(w: World, spreadsheetId: string, testCaseId: string, now: string)
    requires Locates(w, testCaseId, Failed) && TestCasesTab in SheetIds(w.sheet.tabs)
    requires |StatusUpdateAs(w, spreadsheetId, testCaseId, Failed, now, LocatedRow).world.tracker.tickets|
             > |w.tracker.tickets|
    ensures UrlIn(w, StatusUpdateAs(w, spreadsheetId, testCaseId, Failed, now, LocatedRow).world,
                  TargetOf(w, testCaseId, Failed).rowNumber, Headers(w, testCaseId, Failed))
  {
    var t := TargetOf(w, testCaseId, Failed);
    UpdateIsRecord(w, spreadsheetId, testCaseId, Failed, now, LocatedRow);
    TargetFacts(w, testCaseId, Failed);
    RecordUrl(w, spreadsheetId, testCaseId, now, LocatedRow, t.statusCol, t.rowNumber, t.row,
              Headers(w, testCaseId, Failed));
  }

  /** With the URL written back to the located row, every cell `update_status` changes
      lies in that row, whatever the status. */
  lemma ChangesStayInRow(w: World, spreadsheetId: string, testCaseId: string, status: string, now: string)
    requires Locates(w, testCaseId, status)
    ensures var run := StatusUpdateAs(w, spreadsheetId, testCaseId, status, now, LocatedRow);
            var t := TargetOf(w, testCaseId, status);
            forall r: nat, c: nat :: CellAt(run.world.sheet.grid, r, c) != CellAt(w.sheet.grid, r, c) ==> r == t.rowNumber - 1
  {
    StatusRecorded(w, spreadsheetId, testCaseId, status, now, LocatedRow);
  }
}
