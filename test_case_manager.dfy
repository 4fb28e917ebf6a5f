/** The status updater of tools/test_case_manager.py: the status vocabulary and its
    colours, the update of one test case (validate, locate, write value and colour,
    escalate a failure) and the batch update with its report. */
module TestCaseManager {
  import opened Wrappers
  import opened Lists
  import opened Text
  import opened Errors
  import opened Spreadsheet
  import opened Jira

  const NotStarted := "Not Started"
  const InProgress := "In Progress"
  const Blocked := "Blocked"
  const Failed := "Failed"
  const Passed := "Passed"
  const Skipped := "Skipped"

  /** `VALID_STATUSES`. */
  const ValidStatuses: set<string> := {NotStarted, InProgress, Blocked, Failed, Passed, Skipped}

  /** `STATUS_COLORS`, in hundredths. */
  const StatusColors: map<string, Color> := map[
    Passed := Color(70, 90, 70),
    Failed := Color(90, 70, 70),
    Blocked := Color(90, 85, 70),
    InProgress := Color(70, 70, 90),
    Skipped := Color(80, 80, 80),
    NotStarted := Color(100, 100, 100)]

  const White := Color(100, 100, 100)

  /** Every accepted status has a colour, and only those; Not Started resets to white. */
  lemma VocabularyColours()
    ensures StatusColors.Keys == ValidStatuses && |ValidStatuses| == 6
    ensures StatusColors[NotStarted] == White
    ensures forall s :: s in ValidStatuses && s != NotStarted ==> StatusColors[s] != White
  {
  }

  /** The outcome of the scan over the data rows. */
  datatype Lookup = Found(rowNumber: nat, row: seq<string>) | NotFound | ShortRow

  /** The row is long enough for its ID cell and that cell is not `key`: the scan moves on. */
  predicate PassesOver(row: seq<string>, idCol: nat, key: string) {
    idCol < |row| && row[idCol] != key
  }

  /** The scan `for idx, row in enumerate(values[1:], start=2)` from table position `k`
      on: the first row whose ID cell is `key` is found with its sheet row number; a row
      too short for `row[id_col]` raises IndexError before any later row is looked at. */
  function LocateFrom(values: seq<seq<string>>, idCol: nat, key: string, k: nat): (r: Lookup)
    requires k >= 1
    ensures r.Found? ==> k + 1 <= r.rowNumber <= |values| && r.row == values[r.rowNumber - 1]
                         && idCol < |r.row| && r.row[idCol] == key
                         && forall j :: k <= j < r.rowNumber - 1 ==> PassesOver(values[j], idCol, key)
    ensures r.NotFound? <==> forall j :: k <= j < |values| ==> PassesOver(values[j], idCol, key)
    ensures r.ShortRow? ==> exists j :: k <= j < |values| && |values[j]| <= idCol
                                        && forall i :: k <= i < j ==> PassesOver(values[i], idCol, key)
    decreases |values| - k
  {
    if k >= |values| then NotFound
    else if |values[k]| <= idCol then ShortRow
    else if values[k][idCol] == key then Found(k + 1, values[k])
    else LocateFrom(values, idCol, key, k + 1)
  }

  function Locate(values: seq<seq<string>>, idCol: nat, key: string): Lookup {
    LocateFrom(values, idCol, key, 1)
  }

  /** Where the escalator writes the issue URL: as the source does, at the position of
      the row in its argument list, or at the row the update located. */
  datatype WriteBack = ArgumentPosition | LocatedRow

  function Confirmation(testCaseId: string, status: string): string {
    "Updated test case " + testCaseId + " status to " + status
  }

  /** The status written to its cell, sheet row `rowNumber`. */
  function StatusWritten(w: World, status: string, statusCol: nat, rowNumber: nat): World
    requires statusCol < 26 && rowNumber >= 1
  {
    w.(sheet := WriteCell(w.sheet, statusCol, rowNumber, status))
  }

  /** The status's colour set on its cell of the sheet with id `sheetId`. */
  function StatusColoured(w: World, sheetId: int, status: string, statusCol: nat, rowNumber: nat): World
    requires status in ValidStatuses
  {
    w.(sheet := Paint(w.sheet, CellColorRequest(sheetId, rowNumber, statusCol, StatusColors[status])))
  }

  /** The effects after the row has been located at sheet row `rowNumber`: the status
      cell is written, the sheet ids are fetched (a missing Test Cases sheet raises
      KeyError after the write), the colour is set and a Failed status is escalated
      with the located row alone; an exception raised by the escalator propagates. */
  function RecordStatus(w: World, spreadsheetId: string, testCaseId: string, status: string, now: string,
                        writeBack: WriteBack, statusCol: nat, rowNumber: nat, row: seq<string>): (run: Run<string>)
    requires status in ValidStatuses && statusCol < 26 && rowNumber >= 1
  {
    var w1 := StatusWritten(w, status, statusCol, rowNumber);
    var ids := SheetIds(w1.sheet.tabs);
    if TestCasesTab !in ids then Run(w1, Err(KeyMissing(TestCasesTab)))
    else
      var w2 := StatusColoured(w1, ids[TestCasesTab], status, statusCol, rowNumber);
      if status != Failed then Run(w2, Ok(Confirmation(testCaseId, status)))
      else
        var places := if writeBack == ArgumentPosition then ArgumentRows([row]) else [rowNumber];
        var e := Escalate(w2, spreadsheetId, [row], places, now);
        Run(e.world, if e.result.Err? then Err(e.result.error) else Ok(Confirmation(testCaseId, status)))
  }

  /** Where `update_status` acts: the Status column and the located data row. */
  datatype Target = Target(idCol: nat, statusCol: nat, rowNumber: nat, row: seq<string>)

  /** The lookups of `update_status` on the table read back: an empty table, a missing
      ID or Status header, a short row met by the scan and an absent id each raise;
      otherwise the first data row whose ID cell is the id is the target. */
  function FindTarget(values: seq<seq<string>>, testCaseId: string): (r: Result<Target, Exception>)
    ensures r.Ok? ==> |values| > 0 && IndexOf(values[0], "ID") == Some(r.value.idCol)
                      && IndexOf(values[0], "Status") == Some(r.value.statusCol)
                      && Locate(values, r.value.idCol, testCaseId) == Found(r.value.rowNumber, r.value.row)
    ensures r == Err(NoTestCases) <==> |values| == 0
    ensures r == Err(NotInList("ID")) <==> |values| > 0 && "ID" !in values[0]
    ensures r == Err(NotInList("Status")) <==> |values| > 0 && "ID" in values[0] && "Status" !in values[0]
  {
    if |values| == 0 then Err(NoTestCases)
    else match (IndexOf(values[0], "ID"), IndexOf(values[0], "Status"))
      case (None, _) => Err(NotInList("ID"))
      case (_, None) => Err(NotInList("Status"))
      case (Some(idCol), Some(statusCol)) =>
        match Locate(values, idCol, testCaseId)
        case ShortRow => Err(IndexOutOfRange)
        case NotFound => Err(TestCaseNotFound(testCaseId))
        case Found(n, row) => Ok(Target(idCol, statusCol, n, row))
  }

  /** `update_status`, with the issue URL written back as `writeBack` says. */
  function StatusUpdateAs(w: World, spreadsheetId: string, testCaseId: string, status: string, now: string,
                          writeBack: WriteBack): (run: Run<string>)
  {
    if status !in ValidStatuses then Run(w, Err(InvalidStatus(status)))
    else match FindTarget(Visible(w.sheet.grid), testCaseId)
      case Err(e) => Run(w, Err(e))
      case Ok(t) => RecordStatus(w, spreadsheetId, testCaseId, status, now, writeBack, t.statusCol, t.rowNumber, t.row)
  }

  /** `update_status` as written. */
  function StatusUpdate(w: World, spreadsheetId: string, testCaseId: string, status: string, now: string): Run<string> {
    StatusUpdateAs(w, spreadsheetId, testCaseId, status, now, ArgumentPosition)
  }

  /** One element of the `updates` list: a dict that may lack either key. */
  datatype Update = Update(id: Option<string>, status: Option<string>)

  datatype FailedUpdate = FailedUpdate(id: string, error: string)

  /** The `results` and `failed_updates` lists. */
  datatype Tally = Tally(results: seq<string>, failed: seq<FailedUpdate>)

  /** `str(e)` of the exception `update_status` re-raises. */
  function UpdateErrorText(e: Exception): string {
    "Error updating test case: " + Message(e)
  }

  /** `str(e)` of the exception `update_statuses` re-raises. */
  function BatchErrorText(e: Exception): string {
    "Error in batch update: " + Message(e)
  }

  /** The loop of `update_statuses` from position `i` on. A missing 'status' key raises
      KeyError inside the inner try and is recorded as a failure; a missing 'id' key is
      raised again by the handler itself and ends the whole batch. */
  function BatchFrom(w: World, spreadsheetId: string, updates: seq<Update>, now: string, writeBack: WriteBack,
                     i: nat, tally: Tally): (run: Run<Tally>)
    requires i <= |updates|
    decreases |updates| - i
  {
    if i == |updates| then Run(w, Ok(tally))
    else match updates[i].id
      case None => Run(w, Err(KeyMissing("id")))
      case Some(id) =>
        match updates[i].status
        case None =>
          BatchFrom(w, spreadsheetId, updates, now, writeBack, i + 1,
                    tally.(failed := tally.failed + [FailedUpdate(id, Message(KeyMissing("status")))]))
        case Some(status) =>
          var run := StatusUpdateAs(w, spreadsheetId, id, status, now, writeBack);
          match run.result
          case Ok(m) => BatchFrom(run.world, spreadsheetId, updates, now, writeBack, i + 1, tally.(results := tally.results + [m]))
          case Err(e) =>
            BatchFrom(run.world, spreadsheetId, updates, now, writeBack, i + 1,
                      tally.(failed := tally.failed + [FailedUpdate(id, UpdateErrorText(e))]))
  }

  function FailureLine(f: FailedUpdate): string {
    "\n- " + f.id + ": " + f.error
  }

  function FailureLines(fs: seq<FailedUpdate>): string {
    if fs == [] then "" else FailureLines(fs[..|fs| - 1]) + FailureLine(fs[|fs| - 1])
  }

  function ReportHead(successCount: nat): string {
    "Updated " + Decimal(successCount) + " test case(s)"
  }

  function FailureHead(failCount: nat): string {
    "\nFailed to update " + Decimal(failCount) + " test case(s):"
  }

  /** The message `update_statuses` returns. */
  function ReportText(successCount: nat, failures: seq<FailedUpdate>): string {
    ReportHead(successCount) + if |failures| > 0 then FailureHead(|failures|) + FailureLines(failures) else ""
  }

  /** `update_statuses`, each update writing issue URLs back as `writeBack` says. */
  function BatchUpdateAs(w: World, spreadsheetId: string, updates: seq<Update>, now: string,
                         writeBack: WriteBack): (run: Run<string>) {
    var run := BatchFrom(w, spreadsheetId, updates, now, writeBack, 0, Tally([], []));
    match run.result
    case Ok(t) => Run(run.world, Ok(ReportText(|t.results|, t.failed)))
    case Err(e) => Run(run.world, Err(e))
  }

  /** `update_statuses` as written. */
  function BatchUpdate(w: World, spreadsheetId: string, updates: seq<Update>, now: string): Run<string> {
    BatchUpdateAs(w, spreadsheetId, updates, now, ArgumentPosition)
  }

  /** The scan for the row: `row_number` and `row_data` are set at the first row
      whose ID cell is `key`, and the loop breaks. */
  method FindRow(values: seq<seq<string>>, idCol: nat, key: string) returns (lookup: Lookup)
    ensures lookup == Locate(values, idCol, key)
  {
    var rowNumber: nat := 0;
    var rowData: seq<string> := [];
    var k := 1;
    while k < |values|
      invariant 1 <= k
      invariant k < |values| ==> LocateFrom(values, idCol, key, k) == Locate(values, idCol, key)
      invariant k >= |values| ==> Locate(values, idCol, key) == NotFound
    {
      if |values[k]| <= idCol {
        return ShortRow;
      }
      if values[k][idCol] == key {
        rowNumber := k + 1;
        rowData := values[k];
        break;
      }
      k := k + 1;
    }
    if rowNumber == 0 {
      return NotFound;
    }
    return Found(rowNumber, rowData);
  }

  /** The writes and the escalation of `update_status`, once the row is located. */
  method RecordStatusAt(sheet: SheetService, tracker: IssueTracker, spreadsheetId: string, testCaseId: string,
                        status: string, now: string, statusCol: nat, rowNumber: nat, rowData: seq<string>)
    returns (r: Result<string, Exception>)
    requires status in ValidStatuses && statusCol < 26 && rowNumber >= 1
    modifies sheet, tracker
    ensures Run(World(sheet.State(), tracker.State()), r)
            == RecordStatus(old(World(sheet.State(), tracker.State())), spreadsheetId, testCaseId, status, now,
                            ArgumentPosition, statusCol, rowNumber, rowData)
  {
    sheet.UpdateCell(statusCol, rowNumber, status);
    var ids := sheet.GetSheetIds();
    if TestCasesTab !in ids {
      return Err(KeyMissing(TestCasesTab));
    }
    sheet.UpdateCellColor(ids[TestCasesTab], rowNumber, statusCol, StatusColors[status]);
    if status == Failed {
      var created := CreateJiraIssuesForFailures(sheet, tracker, spreadsheetId, [rowData], now);
      if created.Err? {
        return Err(created.error);
      }
    }
    return Ok(Confirmation(testCaseId, status));
  }

  /** The start of `update_status`: the header lookups and the scan over the table read. */
  method FindTestCase(values: seq<seq<string>>, testCaseId: string) returns (r: Result<Target, Exception>)
    ensures r == FindTarget(values, testCaseId)
  {
    if |values| == 0 {
      return Err(NoTestCases);
    }
    var headers := values[0];
    var idIndex := IndexOf(headers, "ID");
    if idIndex.None? {
      return Err(NotInList("ID"));
    }
    var statusIndex := IndexOf(headers, "Status");
    if statusIndex.None? {
      return Err(NotInList("Status"));
    }
    var idCol, statusCol := idIndex.value, statusIndex.value;
    var found := FindRow(values, idCol, testCaseId);
    match found
    case ShortRow => return Err(IndexOutOfRange);
    case NotFound => return Err(TestCaseNotFound(testCaseId));
    case Found(rowNumber, rowData) => return Ok(Target(idCol, statusCol, rowNumber, rowData));
  }

  /** `update_status` as written, over the two services. */
  method UpdateStatus(sheet: SheetService, tracker: IssueTracker, spreadsheetId: string, testCaseId: string,
                      status: string, now: string)
    returns (r: Result<string, Exception>)
    modifies sheet, tracker
    ensures Run(World(sheet.State(), tracker.State()), r)
            == StatusUpdate(old(World(sheet.State(), tracker.State())), spreadsheetId, testCaseId, status, now)
  {
    if status !in ValidStatuses {
      return Err(InvalidStatus(status));
    }
    var values := sheet.GetTestCaseData();
    var target := FindTestCase(values, testCaseId);
    match target
    case Err(e) => return Err(e);
    case Ok(t) =>
      r := RecordStatusAt(sheet, tracker, spreadsheetId, testCaseId, status, now, t.statusCol, t.rowNumber, t.row);
  }

  /** Building the report with `+=`. */
  method Report(successCount: nat, failures: seq<FailedUpdate>) returns (message: string)
    ensures message == ReportText(successCount, failures)
  {
    message := ReportHead(successCount);
    if |failures| > 0 {
      message := message + FailureHead(|failures|);
      for i := 0 to |failures|
        invariant message == ReportHead(successCount) + FailureHead(|failures|) + FailureLines(failures[..i])
      {
        assert failures[..i + 1][..i] == failures[..i];
        message := message + FailureLine(failures[i]);
      }
      assert failures[..|failures|] == failures;
    }
  }

  /** `update_statuses` over the two services. */
  method UpdateStatuses(sheet: SheetService, tracker: IssueTracker, spreadsheetId: string, updates: seq<Update>,
                        now: string)
    returns (r: Result<string, Exception>)
    modifies sheet, tracker
    ensures Run(World(sheet.State(), tracker.State()), r)
            == BatchUpdate(old(World(sheet.State(), tracker.State())), spreadsheetId, updates, now)
  {
    ghost var w0 := World(sheet.State(), tracker.State());
    var results: seq<string> := [];
    var failed: seq<FailedUpdate> := [];
    for i := 0 to |updates|
      invariant BatchFrom(World(sheet.State(), tracker.State()), spreadsheetId, updates, now, ArgumentPosition, i,
                          Tally(results, failed))
                == BatchFrom(w0, spreadsheetId, updates, now, ArgumentPosition, 0, Tally([], []))
    {
      var u := updates[i];
      if u.id.None? {
        return Err(KeyMissing("id"));
      }
      if u.status.None? {
        failed := failed + [FailedUpdate(u.id.value, Message(KeyMissing("status")))];
      } else {
        var res := UpdateStatus(sheet, tracker, spreadsheetId, u.id.value, u.status.value, now);
        if res.Ok? {
          results := results + [res.value];
        } else {
          failed := failed + [FailedUpdate(u.id.value, UpdateErrorText(res.error))];
        }
      }
    }
    var message := Report(|results|, failed);
    return Ok(message);
  }
}
