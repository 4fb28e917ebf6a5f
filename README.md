# Test-case status updates with failure escalation, in Dafny

This project models the QA-automation core of a test-plan tool in Dafny and proves properties of that model.
The tool keeps test cases in a Google spreadsheet and files Jira bugs for failures.

The model covers three parts:

- **Status updater** (`tools/test_case_manager.py`). `update_status` does the following, in order:
  - checks the status against the six-value vocabulary;
  - re-reads the Test Cases table;
  - finds the ID and Status columns by header name;
  - scans the data rows for the first row with the test-case id;
  - writes the status into that cell and sets the status's colour on it;
  - for a Failed status only, hands the located row to the escalator.

  `update_statuses` runs a list of such updates, keeps a list of results and a list of failures, and builds the report string.
- **Escalator** (`tools/jira.py`). `create_jira_issues_for_failures` re-reads the table and resolves six header names. For each failed row, it does the following:
  - skips the row if it already carries an issue reference;
  - builds the summary and description;
  - calls the tracker, and records an issue only when the call returns one;
  - writes the issue's URL back into the Jira Issue column.

  `create_issue` is an oracle: each call consumes the tracker's next reply, and a missing reply or an exception counts as None.
- **Spreadsheet gateway** (`tools/spreadsheet.py`):
  - the one-cell A1 ranges and colour requests;
  - the `get_sheet_ids` mapping and the shareable URL;
  - the sheet list of `create_spreadsheet`;
  - the two blocks `populate_test_plan` writes;
  - the decision of `ensure_editor_access`.

The external services are state:

- **The spreadsheet** (`Spreadsheet.SheetState`, behind the class `Spreadsheet.SheetService`) has:
  - the Test Cases grid and the Test Plan Overview grid;
  - a colour map keyed by sheet id, 0-based row and column;
  - the sheet list;
  - a log of single-cell writes, each with its A1 range.
- **The tracker** (`Jira.TrackerState`, behind the class `Jira.IssueTracker`) holds the replies still to come and the tickets filed.

Reads go through `Spreadsheet.Visible`, which models how the values API answers `get_test_case_data`:

- it keeps the range A:J, that is, ten columns;
- it drops trailing empty cells and trailing empty rows.

The model has two layers:

- **Imperative methods.** Each operation that changes things in the source is a method over the service objects. It has the source's loops and early returns: the row scan with `break`, the escalation loop with `continue`, the batch loop and the report built with `+=`.
- **Specification functions.** Each method's `ensures` ties its outcome to a pure function: `StatusUpdate`, `Escalate`, `BatchUpdate` and the others. The outcome is the pair of the new state of both services and the result or exception. The lemmas about those functions say what the source promises.

The issue URL's write-back row is a parameter of the specification functions (`WriteBack`).

- `ArgumentPosition` is the source's rule: the position of the row in the escalator's argument list, plus 2.
- `LocatedRow` is the corrected rule: the row the update located.

The methods follow the source, using `ArgumentPosition`. Every lemma about `StatusUpdateAs` and `BatchUpdateAs` holds for both rules, except three that are stated for one rule only: `UrlAsWritten` for `ArgumentPosition`, and `UrlAtLocatedRow` and `ChangesStayInRow` for `LocatedRow`. None of them compares the two rules. `UrlAsWritten` and `UrlAtLocatedRow` are the two halves of the finding (see "Findings").

In three places the code behaves in a way a reader might not expect; the model follows the code:

- **Short rows.** A data row too short to hold the ID cell makes the whole update raise IndexError; the scan does not skip it (`tools/test_case_manager.py:51`).
- **Missing 'id' key in a batch.** The handler itself reads `update['id']` again, so that KeyError escapes the inner handler and aborts the whole batch (`tools/test_case_manager.py:109-113`). A missing 'status' key only records a failure.
- **Escalation errors.** A failed tracker call never fails the update. These do propagate out of `update_status`, after the status cell has been written:
  - a missing Title, Description, Steps or Expected Results header (`tools/jira.py:63-68`);
  - a failed row too short for the summary (`tools/jira.py:75-86`, outside the try block).
- **Write-back row.** The issue URL goes to the row's position in the argument list plus 2, not to the row's own sheet row (`tools/jira.py:103`).

## Model

| member | source | states |
|---|---|---|
| Lists.IndexOf | tools/test_case_manager.py:45-46 | `list.index`: the first position holding the element; `None`, the ValueError, exactly when it is absent |
| Lists.DropTrailing | tools/spreadsheet.py:220-224 | the prefix of a row left when the trailing blanks the values API omits are dropped; it ends in a non-blank |
| Text.Decimal | tools/test_case_manager.py:60 | `str(n)` is a nonempty string of digits |
| Text.DecimalRoundTrip | tools/test_case_manager.py:119 | the digits of `str(n)` denote `n`, so the count in the report reads back |
| Text.DecimalInjective | tools/test_case_manager.py:60 | distinct row numbers give distinct digit strings |
| Errors.Message | tools/test_case_manager.py:36-57 | specification: the text `str(e)` of each exception the core raises; its property is `MessageInjective` |
| Errors.MessageLead | tools/test_case_manager.py:36-57 | the first character of a text, and for the two quoted kinds its last, tells which exception it is |
| Errors.MessageInjective | tools/test_case_manager.py:36-57 | distinct exceptions print distinct texts, so an error text in the report names the exception and what it carries |
| Spreadsheet.GetUrl | tools/spreadsheet.py:297-307 | the shareable link is the fixed prefix, the spreadsheet id, then `/edit`, and the id can be read back from it |
| Spreadsheet.ColumnLetter | tools/test_case_manager.py:60 | `chr(65 + col)` is the capital letter at offset `col` from A |
| Spreadsheet.A1Injective | tools/test_case_manager.py:60 | two A1 ranges on one sheet are equal only for the same column and row, so the write log names each cell |
| Spreadsheet.CellColorRequest | tools/spreadsheet.py:255-271 | the colour request covers exactly one cell: 0-based row `row - 1` and column `col`, with the given colour |
| Spreadsheet.SheetIds | tools/spreadsheet.py:292-295 | the keys are exactly the sheet titles, and each title maps to the id of its last sheet |
| Spreadsheet.Visible | tools/spreadsheet.py:208-224 | the read view has no more rows than the grid and at most ten cells per row; `VisibleRow`, `VisibleCells` and `VisibleCell` say which cells |
| Spreadsheet.WriteCell | tools/spreadsheet.py:226-241 | specification of `update_cell` on the state: `SetCell` on the grid and one logged write; its properties are `SetCell`, `A1Injective` and `SheetService.UpdateCell` |
| Spreadsheet.Paint | tools/spreadsheet.py:243-276 | specification of `update_cell_color` on the state: the request's one cell takes its colour; its properties are `CellColorRequest` and `SheetService.UpdateCellColor` |
| Spreadsheet.SetCell | tools/spreadsheet.py:236-241 | a single-cell update changes that cell to the value and no other cell, padding the grid as needed |
| Spreadsheet.Overlay | tools/spreadsheet.py:201-206 | writing a block at A1 puts each block cell at its place and keeps every cell outside the block |
| Spreadsheet.VisibleRow | tools/spreadsheet.py:208-224 | a row as read is a prefix of its first ten cells; the rest are empty and the last cell read is nonempty |
| Spreadsheet.VisibleCells | tools/spreadsheet.py:208-224 | every cell read is the grid's cell; every nonempty cell in columns A-J is read, at its own position |
| Spreadsheet.VisibleCell | tools/spreadsheet.py:208-224 | a nonempty cell within the ten columns is read back at its position |
| Spreadsheet.SameHeaderRow | tools/jira.py:61-63 | the header row the escalator re-reads depends only on the first ten cells of sheet row 1 |
| Spreadsheet.SheetService.GetTestCaseData | tools/spreadsheet.py:208-224 | `get_test_case_data` returns the read view of the Test Cases grid |
| Spreadsheet.SheetService.UpdateCell | tools/spreadsheet.py:226-241 | `update_cell` sets the one cell and logs the write under its A1 range |
| Spreadsheet.SheetService.UpdateCellColor | tools/spreadsheet.py:243-276 | `update_cell_color` sets the colour of the one cell its request covers |
| Spreadsheet.SheetService.GetSheetIds | tools/spreadsheet.py:278-295 | `get_sheet_ids` returns the title-to-id map of the sheet list |
| Spreadsheet.SheetService.UpdateValues | tools/spreadsheet.py:173-178 | `values().update` at A1 overlays the block on one of the two sheets and changes nothing else |
| SpreadsheetSetup.CreateSpreadsheetBody | tools/spreadsheet.py:66-75 | a new spreadsheet asks for exactly three sheets, Test Plan Overview, Test Cases and Test Execution, with distinct titles |
| SpreadsheetSetup.CreatedSheetIds | tools/spreadsheet.py:77-87 | the `sheet_ids` of a new spreadsheet has exactly the three titles, and Test Cases maps to the second sheet's id |
| SpreadsheetSetup.OverviewRows | tools/spreadsheet.py:163-171 | the overview block is scope, blank, Objectives, one row per objective, blank, Test Environment, one row per entry; its length is 5 + objectives + entries |
| SpreadsheetSetup.CaseRow | tools/spreadsheet.py:188-199 | each data row has the ten header cells |
| SpreadsheetSetup.TestCaseTable | tools/spreadsheet.py:181-199 | the table is the header followed by one row per test case, in input order; its length is 1 + the number of cases |
| SpreadsheetSetup.BuildTestCaseData | tools/spreadsheet.py:186-199 | the append loop builds exactly that table |
| SpreadsheetSetup.PopulateTestPlan | tools/spreadsheet.py:160-206 | `populate_test_plan` overlays the overview block and the test-case table, each at A1 of its sheet, and nothing else |
| SpreadsheetSetup.HeaderPosition | tools/spreadsheet.py:181-184 | the ten header names are distinct, so `headers.index` finds each at its own column |
| SpreadsheetSetup.PopulatedHeader | tools/spreadsheet.py:181-206 | a table written into an empty sheet reads back with the full ten-name header |
| SpreadsheetSetup.PopulatedRows | tools/spreadsheet.py:186-206 | written into an empty sheet and read back, one row per test case (all with ids), each showing its id in the ID column |
| SpreadsheetSetup.WithEditor | tools/spreadsheet.py:44-59 | after access is ensured the address is a writer; the list is unchanged if it already was, or gains exactly one user-writer grant |
| SpreadsheetSetup.WithEditorIdempotent | tools/spreadsheet.py:44-59 | ensuring editor access twice creates the permission at most once |
| SpreadsheetSetup.Drive.EnsureEditorAccess | tools/spreadsheet.py:36-59 | the loop with its early return leaves the permission list that `WithEditor` specifies |
| Jira.CreateIssue | tools/jira.py:18-46 | a ticket is recorded exactly when the next reply carries an issue; a missing reply or an exception returns None and files nothing |
| Jira.IssueTracker.Create | tools/jira.py:38-46 | the tracker call consumes one reply and files a ticket exactly as `CreateIssue` says |
| Jira.Summary | tools/jira.py:75 | specification of the summary f-string; its property is `SummaryFields` |
| Jira.SummaryFields | tools/jira.py:75 | the title follows the fixed prefix in the summary and the id sits inside the closing parentheses |
| Jira.Description | tools/jira.py:76-91 | specification of the description f-string; its property is `DescriptionFields` |
| Jira.DescriptionFields | tools/jira.py:76-91 | the description opens with the failed case's id and ends with the spreadsheet's link and a line break |
| Jira.IssueUrl | tools/jira.py:104 | specification of the browse link; its property is `IssueUrlInjective` |
| Jira.IssueUrlInjective | tools/jira.py:104 | the key reads back from its link, so distinct keys give distinct links |
| Jira.ResolveColumns | tools/jira.py:63-69 | the five required headers are found at cells holding their names, their absence raises; an absent Jira Issue header gives `len(headers)` |
| Jira.ResolveColumnsFirst | tools/jira.py:63-69 | each column is the first position of its header, as `list.index` gives; the error is NotInList of the first missing name in the order ID, Title, Description, Steps, Expected Results |
| Jira.EscalateRow | tools/jira.py:71-115 | specification of one pass of the loop; its properties are `EscalateRowEffects` and `EscalateRowIssue` |
| Jira.EscalateFrom | tools/jira.py:71-117 | specification of the loop from one row on; its properties are `EscalateFromEffects`, `EscalateFromSources` and `EscalateFromNoTicket` |
| Jira.Escalate | tools/jira.py:48-117 | specification of `create_jira_issues_for_failures`; its properties are `EscalateFrame`, `EscalateCells` and `EscalateOne` |
| Jira.ArgumentRows | tools/jira.py:103 | the write-back row is 2 + the index of the first equal row in the argument list |
| Jira.EscalateRowAt | tools/jira.py:71-115 | one pass of the loop body: the skip, the raise on a short row, the tracker call and the write-back, as `EscalateFrom` specifies |
| Jira.ReadHeaderColumns | tools/jira.py:61-69 | the re-read table's header resolves as `ResolveColumns` says; an empty table raises IndexError |
| Jira.EscalateRows | tools/jira.py:71-117 | the loop over the failed rows ends in the state and result `EscalateFrom` specifies |
| Jira.CreateJiraIssuesForFailures | tools/jira.py:48-117 | the escalator ends in the state and result that `Escalate` specifies, with the rows written back to `failed_rows.index(row) + 2` |
| EscalationProperties.EscalateRowEffects | tools/jira.py:71-115 | one row raises exactly when unreferenced and too short; otherwise the step changes only that row's Jira cell and files at most the one issue it returns |
| EscalationProperties.EscalateFromEffects | tools/jira.py:71-117 | the loop changes only Jira cells at the write-back rows, never colours, sheets or overview; a completed run returns one issue per ticket filed, in order, no more than one per row |
| EscalationProperties.EscalateFrame | tools/jira.py:48-117 | the escalator only adds to the log and the tickets, a run that files no ticket leaves the spreadsheet as it was, and a completed run returns exactly the issues filed, at most one per row |
| EscalationProperties.EscalateRowIssue | tools/jira.py:74-101 | a pass that records an issue files one ticket, and the issue holds the row's id, the summary of its title and id, and the key of the ticket filed with that summary and the row's description |
| EscalationProperties.EscalateFromNoTicket | tools/jira.py:93-109 | a loop that files no ticket writes no cell, since a URL is written only after an issue is created |
| EscalationProperties.EscalateSources | tools/jira.py:48-117 | each issue a completed escalator returns comes from its own failed row, in row order, with the row's id and summary and the ticket filed with the row's summary and description |
| EscalationProperties.EscalateFromSources | tools/jira.py:71-110 | each issue a completed loop returns comes from its own failed row, in row order: the row's id, the row's summary, and the ticket filed with the row's summary and description |
| EscalationProperties.EscalateCells | tools/jira.py:61-69 | an empty table or a missing header raises before any effect; otherwise only the Jira column, at the write-back rows, changes |
| EscalationProperties.SkipReferenced | tools/jira.py:72-73 | rows that already carry a reference are skipped without any effect |
| EscalationProperties.AllReferenced | tools/jira.py:71-73 | re-running on rows that all carry a reference files no ticket and writes nothing |
| EscalationProperties.EscalateOne | tools/jira.py:71-109 | once the header has resolved, the loop over one row files an issue exactly when the row is unreferenced and readable and the next reply carries one; that issue holds the row's id and summary and the key of the ticket filed with the row's summary and description, and its URL is in the Jira cell of the write-back row; filing none writes nothing; an exception leaves both services as they were |
| EscalationProperties.EscalateRowOnce | tools/jira.py:71-109 | from an empty issue list, one row raises exactly when unreferenced and too short; otherwise it files at most one ticket, exactly when the reply carries one, with the URL in the row's Jira cell, and filing none leaves the spreadsheet as it was |
| TestCaseManager.VocabularyColours | tools/test_case_manager.py:10-19 | the colour keys are exactly the six valid statuses; Not Started is white and no other status is |
| TestCaseManager.LocateFrom | tools/test_case_manager.py:48-57 | the scan finds the first row with the id, at data index + 2; NotFound exactly when every row is long enough and different; a short row before the match raises |
| TestCaseManager.FindTarget | tools/test_case_manager.py:39-57 | an empty table, a missing ID header and a missing Status header each raise their own error; a target is the first matching row of the table |
| TestCaseManager.FindRow | tools/test_case_manager.py:48-54 | the loop with `break` returns what `Locate` specifies |
| TestCaseManager.FindTestCase | tools/test_case_manager.py:39-57 | the lookups and the scan return what `FindTarget` specifies |
| TestCaseManager.RecordStatus | tools/test_case_manager.py:59-80 | specification of the steps after the row is located; its properties are `RecordFrame`, `RecordColours`, `RecordTracker`, `RecordFailure`, `RecordUrl` and `RecordNoTicket` |
| TestCaseManager.StatusUpdateAs | tools/test_case_manager.py:21-83 | specification of `update_status` under a write-back rule; its properties are the `StatusProperties` lemmas |
| TestCaseManager.StatusUpdate | tools/test_case_manager.py:21-83 | `StatusUpdateAs` with the source's write-back rule |
| TestCaseManager.BatchFrom | tools/test_case_manager.py:101-113 | specification of the batch loop from one update on; its properties are `BatchFromOutcome` and `BatchEntry` |
| TestCaseManager.BatchUpdateAs | tools/test_case_manager.py:97-128 | specification of `update_statuses` under a write-back rule; its properties are `BatchOutcome`, `RejectedBatchReport` and `ReportShape` |
| TestCaseManager.BatchUpdate | tools/test_case_manager.py:85-128 | `BatchUpdateAs` with the source's write-back rule |
| TestCaseManager.FailureLines | tools/test_case_manager.py:122-123 | specification of the failure lines; its property is `FailureLinesAppend` |
| TestCaseManager.ReportText | tools/test_case_manager.py:116-125 | specification of the report; its property is `ReportShape` |
| TestCaseManager.RecordStatusAt | tools/test_case_manager.py:59-80 | the write, sheet-id lookup, colour and escalation end in the state and result that `RecordStatus` specifies |
| TestCaseManager.UpdateStatus | tools/test_case_manager.py:21-83 | `update_status` ends in the state and result that `StatusUpdate` specifies |
| TestCaseManager.Report | tools/test_case_manager.py:115-125 | the message built with `+=` is `ReportText` |
| TestCaseManager.UpdateStatuses | tools/test_case_manager.py:85-128 | `update_statuses` ends in the state and result that `BatchUpdate` specifies |
| StatusProperties.TargetFacts | tools/test_case_manager.py:44-61 | a located row is a data row, its Status column is among the ten read, and it was found through the header row as read |
| StatusProperties.HeaderAfterWrite | tools/test_case_manager.py:59-71 | the status write and the colour step leave the header row the escalator re-reads as it was |
| StatusProperties.UpdateIsRecord | tools/test_case_manager.py:33-80 | once the row is located, the update is the recording step on that row |
| StatusProperties.JiraColumnIsNotStatus | tools/jira.py:63-69 | the escalator's Jira column is never the Status column |
| StatusProperties.EscalatedOnceHolds | tools/test_case_manager.py:74-76 | the one-row escalation keeps the spreadsheet's frame and raises exactly on an unresolved header or a short unreferenced row, with no effect; it files a ticket exactly when the reply carries one, with the URL at the write-back row, and changes only that Jira cell; filing none, it writes nothing |
| StatusProperties.OnceAfterWrite | tools/test_case_manager.py:59-76 | the status write and the colour leave the tracker alone, and the header still resolves for the one-row escalation that follows, so `EscalatedOnce` holds of it |
| StatusProperties.EscalationNoTicket | tools/test_case_manager.py:59-76 | after the status write and the colour, an escalation that files no ticket leaves only the status write in the grid and the log |
| StatusProperties.RecordNoTicket | tools/test_case_manager.py:59-80 | a recording step that files no ticket writes only the status cell, logs only that write, and changes no sheet or overview |
| StatusProperties.RecordFrame | tools/test_case_manager.py:59-80 | after the recording step, the status write is logged first and the cell holds the status; every other changed cell is in the write-back row, outside the Status column; a step that files no ticket writes only the status |
| StatusProperties.EscalationFrame | tools/test_case_manager.py:59-76 | after the status write, the colour step and the one-row escalation, the status write is logged first and the cell holds the status; every other changed cell is in the write-back row, outside the Status column; an escalation that files no ticket leaves only the status write |
| StatusProperties.EscalationWritten | tools/test_case_manager.py:59-76 | after the status write, the colour step and the one-row escalation, the status write stays and every other change is in the write-back row, outside the Status column |
| StatusProperties.RecordColours | tools/test_case_manager.py:63-71 | the recording step's colours are `ColoursAfter`: the status's colour on the status cell if the Test Cases sheet exists, otherwise none changes |
| StatusProperties.RecordTracker | tools/test_case_manager.py:73-78 | the recording step files at most one ticket, and leaves the tracker alone for a non-Failed status or a missing Test Cases sheet |
| StatusProperties.RecordFailure | tools/test_case_manager.py:73-80 | for Failed, the step raises exactly on an unresolved header or a short unreferenced row, and files a ticket exactly when the header resolves, the row is unreferenced and readable, and the reply carries an issue |
| StatusProperties.RecordUrl | tools/jira.py:103-109 | when a ticket is filed, its URL is in the Jira cell of the write-back row, and every other row's Jira cell is unchanged |
| StatusProperties.NoEffectUnlessLocated | tools/test_case_manager.py:33-57 | the update changes nothing exactly when it raises before locating a row; an invalid status raises InvalidStatus, and a lookup failure raises its own error |
| StatusProperties.StatusRecorded | tools/test_case_manager.py:59-76 | once located, the status write is the first logged write and the status cell holds the status; every other changed cell is in the write-back row, outside the Status column; an update that files no ticket writes nothing but the status |
| StatusProperties.StatusColourSet | tools/test_case_manager.py:63-71 | once located, the status's colour is on the status cell when the Test Cases sheet is found, and no colour changes otherwise |
| StatusProperties.EscalationOnlyOnFailure | tools/test_case_manager.py:64-80 | at most one ticket per update, and none for a non-Failed status; a missing Test Cases sheet raises KeyError after the write; other statuses are confirmed |
| StatusProperties.FailureOutcome | tools/test_case_manager.py:73-80 | a located Failed update raises exactly when the headers do not resolve or the row is unreferenced and too short, never because the tracker failed; it files a ticket exactly when the row can be escalated and the reply carries an issue |
| StatusProperties.UrlAsWritten | tools/jira.py:103 | as written, the filed issue's URL goes to sheet row 2, and the located row's own Jira cell keeps its value when that row is not row 2 |
| StatusProperties.UrlAtLocatedRow | tools/jira.py:103-109 | with the corrected write-back, the filed issue's URL is in the located row's Jira cell |
| StatusProperties.ChangesStayInRow | tools/test_case_manager.py:59-76 | with the corrected write-back, every cell an update changes lies in the located row |
| BatchProperties.BatchFromOutcome | tools/test_case_manager.py:101-113 | the loop raises KeyError('id') exactly when a later update lacks an id; otherwise each update adds exactly one entry, a result or a failure, after those already tallied |
| BatchProperties.BatchOutcome | tools/test_case_manager.py:97-128 | the batch aborts with "Error in batch update: 'id'" exactly when some update lacks an id; otherwise results + failures = the number of updates |
| BatchProperties.BatchEntry | tools/test_case_manager.py:101-113 | in a completed batch, update `i`'s entry comes right after the entries of the updates before it: the KeyError('status') failure when it has no status, otherwise its confirmation or the error text of its failure, with its own id |
| BatchProperties.EntryMissingStatus | tools/test_case_manager.py:105-113 | an update without a status records the KeyError('status') failure under its id, right after the failures before it |
| BatchProperties.EntryAfterCall | tools/test_case_manager.py:103-113 | an update with a status records the outcome of its own `update_status` call, right after the entries before it |
| BatchProperties.RejectedBatchUnchanged | tools/test_case_manager.py:101-113 | updates that all lack a status or have an invalid one leave both services untouched and add no result |
| BatchProperties.RejectedBatchReport | tools/test_case_manager.py:101-125 | such a batch changes nothing and its report opens with "Updated 0 test case(s)" |
| BatchProperties.FailureLinesAppend | tools/test_case_manager.py:122-123 | the failure lines of two lists in sequence are the lines of the joined list; with `BatchEntry`, failures are listed in input order |
| BatchProperties.ReportShape | tools/test_case_manager.py:119-123 | the report opens with the success count, and has nothing after it exactly when no update failed |

## Left out

**Operations and code not in the model:**

- `verify_access`, `make_public`, `format_spreadsheet`, `batch_update_cells` and `batch_update_formatting` (`tools/spreadsheet.py`) are not part of this model. They are API calls with no decision logic, and `create_spreadsheet` models only the sheet list it requests.
- Client construction, credential loading and the module-level calls (`tools/spreadsheet.py:10-21`, `tools/spreadsheet.py:342`, `tools/jira.py:1-15`) are left out. So is the call `create_issue("Test", "Test")` at import time (`tools/jira.py:119`).
- `tools/planner.py` (calls to foreign AI and crawling services), `tools/record_result.py` (a stub that only prints) and `tools/__init__.py` (re-exports) are not part of this model.
- Every `print` is left out.

**Service behaviour:**

- Gateway failures are left out: HTTP errors, a permission refused, and the `HttpError` wrapping in `ensure_editor_access`. The services never fail; only the tracker's replies can be missing or None.
- The tracker is an oracle list of replies. An exception inside `issue_create` is modelled as a None reply.
- Reads follow the values API convention: ten columns, no trailing empty cells or rows. No other trimming or type conversion of the API is modelled.

**Representation choices:**

- Colours are kept in hundredths, as natural numbers. No arithmetic is done on them in the source.
- `datetime.now()` is a parameter `now`, and one value is used for a whole call. Nothing is proved about its value.
- The text of the ValueError for an invalid status lists the set in a fixed order. Python's order depends on string hashing.
- A1 ranges are built only for columns A-Z. The ten-column read bounds every column the core writes, so this never excludes an input.

**Weaker or restricted statements:**

- TestCaseManager.UpdateStatus: the result carries the exception `update_status` caught, not the re-raised wrapper. The wrapper's text is `UpdateErrorText` of it, which is what the batch records.
- TestCaseManager.UpdateStatuses: a batch aborted by an update without an id ends in `KeyMissing("id")` itself, not in the re-raised Exception whose text is "Error in batch update: 'id'". That text is `BatchErrorText` of it, which `BatchProperties.BatchOutcome` states.
- SpreadsheetSetup.PopulatedRows: stated only for test cases whose id is nonempty. A row with an empty id and otherwise empty cells would not be read back.

## Findings

| source | as written | input that shows it | evidently intended | confidence | as-written member | corrected member |
|---|---|---|---|---|---|---|
| tools/jira.py:103 | The issue URL goes to the sheet row at the row's position in the argument list plus 2. `update_status` passes a one-element list, so the URL always goes to sheet row 2. | A Failed update for a test case at sheet row 5: the headers resolve, the row has no reference and can be read, and the tracker returns an issue. The URL is written to row 2's Jira cell (another test case's), and row 5's Jira cell is unchanged. | The URL lands in the Jira cell of the row the update located (row 5). | not executed | StatusProperties.UrlAsWritten | StatusProperties.UrlAtLocatedRow |
