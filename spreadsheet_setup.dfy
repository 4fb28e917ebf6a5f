/** The setup side of tools/spreadsheet.py: the sheet list of a new spreadsheet, the
    layout `populate_test_plan` writes, and the editor-access check. */
module SpreadsheetSetup {
  import opened Wrappers
  import opened Lists
  import opened Text
  import opened Spreadsheet

  /** The body `create_spreadsheet` sends. */
  datatype SpreadsheetBody = SpreadsheetBody(title: string, sheetTitles: seq<string>)

  /** `create_spreadsheet` asks for exactly three sheets, with three distinct titles. */
  function CreateSpreadsheetBody(title: string): (body: SpreadsheetBody)
    ensures body.title == title && |body.sheetTitles| == 3
    ensures body.sheetTitles[0] == OverviewTab && body.sheetTitles[1] == TestCasesTab && body.sheetTitles[2] == ExecutionTab
    ensures forall i, j :: 0 <= i < j < 3 ==> body.sheetTitles[i] != body.sheetTitles[j]
  {
    SpreadsheetBody(title, [OverviewTab, TestCasesTab, ExecutionTab])
  }

  /** The sheets of the created spreadsheet, as its response lists them with the ids
      the service gave them. */
  function ResponseTabs(body: SpreadsheetBody, given: seq<int>): (tabs: seq<SheetProps>)
    requires |given| == |body.sheetTitles|
    ensures |tabs| == |given|
  {
    seq(|given|, i requires 0 <= i < |given| => SheetProps(body.sheetTitles[i], given[i]))
  }

  /** The `sheet_ids` returned for a new spreadsheet name its three sheets, so the
      lookup `sheet_ids['Test Cases']` of `update_status` finds the second one. */
  lemma CreatedSheetIds(title: string, given: seq<int>)
    requires |given| == 3
    ensures SheetIds(ResponseTabs(CreateSpreadsheetBody(title), given)).Keys == {OverviewTab, TestCasesTab, ExecutionTab}
    ensures SheetIds(ResponseTabs(CreateSpreadsheetBody(title), given))[TestCasesTab] == given[1]
  {
    var body := CreateSpreadsheetBody(title);
    var tabs := ResponseTabs(body, given);
    assert tabs[0].title == OverviewTab && tabs[1].title == TestCasesTab && tabs[2].title == ExecutionTab;
    assert (set t | t in tabs :: t.title) == {OverviewTab, TestCasesTab, ExecutionTab} by {
      assert tabs == [tabs[0], tabs[1], tabs[2]];
    }
    assert tabs[2].title != tabs[1].title;
  }

  datatype OverviewData = OverviewData(scope: string, objectives: seq<string>, environment: seq<string>)

  datatype TestCase = TestCase(id: string, category: string, title: string, description: string,
                               prerequisites: string, steps: seq<string>, expectedResults: string,
                               priority: string, status: string)

  datatype TestPlan = TestPlan(overview: OverviewData, cases: seq<TestCase>)

  const TestCaseHeaders: seq<string> :=
    ["ID", "Category", "Title", "Description", "Prerequisites", "Steps", "Expected Results", "Priority", "Status", "Jira Issue"]

  /** `overview_data`: the scope, a blank row, the objectives under their heading, a
      blank row, the environment entries under theirs; one cell per row but the first. */
  function OverviewRows(o: OverviewData): (rows: seq<seq<string>>)
    ensures |rows| == 5 + |o.objectives| + |o.environment|
    ensures rows[0] == ["Scope", o.scope] && rows[1] == [""] && rows[2] == ["Objectives"]
    ensures forall i :: 0 <= i < |o.objectives| ==> rows[3 + i] == [o.objectives[i]]
    ensures rows[3 + |o.objectives|] == [""] && rows[4 + |o.objectives|] == ["Test Environment"]
    ensures forall i :: 0 <= i < |o.environment| ==> rows[5 + |o.objectives| + i] == [o.environment[i]]
  {
    [["Scope", o.scope], [""], ["Objectives"]]
    + seq(|o.objectives|, i requires 0 <= i < |o.objectives| => [o.objectives[i]])
    + [[""], ["Test Environment"]]
    + seq(|o.environment|, i requires 0 <= i < |o.environment| => [o.environment[i]])
  }

  /** One data row: ten cells in header order, the steps joined by line breaks and
      the Jira Issue cell empty. */
  function CaseRow(tc: TestCase): (row: seq<string>)
    ensures |row| == |TestCaseHeaders|
  {
    [tc.id, tc.category, tc.title, tc.description, tc.prerequisites, JoinLines(tc.steps),
     tc.expectedResults, tc.priority, tc.status, ""]
  }

  /** `test_case_data`: the header followed by one row per test case, in order. */
  function TestCaseTable(cases: seq<TestCase>): (table: seq<seq<string>>)
    ensures |table| == 1 + |cases| && table[0] == TestCaseHeaders
    ensures forall i :: 0 <= i < |cases| ==> table[i + 1] == CaseRow(cases[i])
  {
    [TestCaseHeaders] + seq(|cases|, i requires 0 <= i < |cases| => CaseRow(cases[i]))
  }

  /** The loop of `populate_test_plan` that appends one row per test case. */
  method BuildTestCaseData(cases: seq<TestCase>) returns (data: seq<seq<string>>)
    ensures data == TestCaseTable(cases)
  {
    data := [TestCaseHeaders];
    for i := 0 to |cases|
      invariant |data| == 1 + i && data[0] == TestCaseHeaders
      invariant forall j :: 0 <= j < i ==> data[j + 1] == CaseRow(cases[j])
    {
      data := data + [CaseRow(cases[i])];
    }
  }

  /** `populate_test_plan`: two writes at A1, the overview block and the test-case table. */
  method PopulateTestPlan(sheet: SheetService, plan: TestPlan)
    modifies sheet
    ensures sheet.State() == old(sheet.State()).(overview := Overlay(old(sheet.overview), OverviewRows(plan.overview)),
                                                 grid := Overlay(old(sheet.grid), TestCaseTable(plan.cases)))
  {
    var overviewData := OverviewRows(plan.overview);
    sheet.UpdateValues(true, overviewData);
    var testCaseData := BuildTestCaseData(plan.cases);
    sheet.UpdateValues(false, testCaseData);
  }

  /** The ten header names are distinct, so `headers.index(name)` finds each at its own
      column, as `update_status` and the escalator look them up. */
  lemma HeaderPosition(col: nat)
    requires col < |TestCaseHeaders|
    ensures IndexOf(TestCaseHeaders, TestCaseHeaders[col]) == Some(col)
  {
    var h := TestCaseHeaders;
    assert forall j, k :: 0 <= j < k < |h| ==> h[j] != h[k];
    FirstIndex(h, h[col], col);
  }

  /** Reading back a table written into an empty sheet shows the full header row. */
  lemma PopulatedHeader(cases: seq<TestCase>)
    ensures |Visible(Overlay([], TestCaseTable(cases)))| >= 1
    ensures Visible(Overlay([], TestCaseTable(cases)))[0] == TestCaseHeaders
  {
    var grid := Overlay([], TestCaseTable(cases));
    var h := TestCaseHeaders;
    forall c: nat | c < ReadColumns
      ensures RowCell(grid[0], c) == RowCell(h, c)
    {
      assert CellAt(grid, 0, c) == h[c];
    }
    VisibleRowAgree(grid[0], h);
    var t := VisibleRow(h);
    assert h[9] != "";
    assert |t| == 10;
    VisibleAt(grid, 0);
  }

  /** The rows read back are the header and one row per test case, each row of a test
      case showing its id in the ID column. */
  predicate ShowsIds(v: seq<seq<string>>, cases: seq<TestCase>) {
    |v| == 1 + |cases| && forall r :: 1 <= r < |v| ==> 0 < |v[r]| && v[r][0] == cases[r - 1].id
  }

  /** Reading back a table written into an empty sheet whose test cases all have an
      id: one row per test case, each showing its id in the ID column. */
  lemma PopulatedRows(cases: seq<TestCase>)
    requires forall i :: 0 <= i < |cases| ==> cases[i].id != ""
    ensures ShowsIds(Visible(Overlay([], TestCaseTable(cases))), cases) == true
  {
    var grid := Overlay([], TestCaseTable(cases));
    assert CellAt(grid, 0, 0) == "ID";
    forall j | 0 <= j < |cases|
      ensures CellAt(grid, j + 1, 0) == cases[j].id
    {
      IdCell(cases, j);
    }
    ReadBackIds(grid, cases);
  }

  /** A grid of 1 + n rows whose ID column holds a nonempty header and the n ids
      reads back as one row per test case with its id. */
  lemma ReadBackIds(grid: seq<seq<string>>, cases: seq<TestCase>)
    requires |grid| == 1 + |cases| && CellAt(grid, 0, 0) != ""
    requires forall j :: 0 <= j < |cases| ==> cases[j].id != "" && CellAt(grid, j + 1, 0) == cases[j].id
    ensures ShowsIds(Visible(grid), cases) == true
  {
    var v := Visible(grid);
    if |cases| == 0 {
      VisibleCell(grid, 0, 0);
    } else {
      var last := |cases| - 1;
      assert cases[last].id != "" && CellAt(grid, last + 1, 0) == cases[last].id;
      VisibleCell(grid, last + 1, 0);
    }
    assert |v| == 1 + |cases|;
    forall r | 1 <= r < |v|
      ensures 0 < |v[r]| && v[r][0] == cases[r - 1].id
    {
      assert cases[r - 1].id != "" && CellAt(grid, (r - 1) + 1, 0) == cases[r - 1].id;
      VisibleCell(grid, r, 0);
    }
    assert ShowsIds(v, cases);
  }

  /** The ID cell of the row written for test case `j`. */
  lemma IdCell(cases: seq<TestCase>, j: nat)
    requires j < |cases|
    ensures CellAt(Overlay([], TestCaseTable(cases)), j + 1, 0) == cases[j].id
  {
    var table := TestCaseTable(cases);
    assert table[j + 1] == CaseRow(cases[j]);
  }

  /** One entry of the permission list of a file. */
  datatype Permission = Permission(kind: string, role: Option<string>, email: Option<string>)

  predicate IsWriter(p: Permission, email: string) {
    p.email == Some(email) && p.role == Some("writer")
  }

  predicate HasWriter(perms: seq<Permission>, email: string) {
    exists i :: 0 <= i < |perms| && IsWriter(perms[i], email)
  }

  function EditorGrant(email: string): Permission {
    Permission("user", Some("writer"), Some(email))
  }

  /** The permission list after `ensure_editor_access`: unchanged when the address is
      already a writer, the grant appended otherwise; either way the address is a writer. */
  function WithEditor(perms: seq<Permission>, email: string): (after: seq<Permission>)
    ensures HasWriter(after, email)
    ensures HasWriter(perms, email) ==> after == perms
    ensures !HasWriter(perms, email) ==> after == perms + [EditorGrant(email)]
  {
    if HasWriter(perms, email) then perms
    else
      var after := perms + [EditorGrant(email)];
      assert IsWriter(after[|perms|], email);
      after
  }

  /** Ensuring editor access twice grants it once. */
  lemma WithEditorIdempotent(perms: seq<Permission>, email: string)
    ensures WithEditor(WithEditor(perms, email), email) == WithEditor(perms, email)
  {
  }

  /** The Drive service bound to one spreadsheet file. */
  class Drive {
    var permissions: seq<Permission>

    constructor (perms: seq<Permission>)
      ensures permissions == perms
    {
      permissions := perms;
    }

    /** `ensure_editor_access`: the loop returns early on a writer entry for the
        address; otherwise one writer permission is created. */
    method EnsureEditorAccess(email: string)
      modifies this
      ensures permissions == WithEditor(old(permissions), email)
    {
      var listed := permissions;
      for i := 0 to |listed|
        invariant permissions == listed
        invariant forall j :: 0 <= j < i ==> !IsWriter(listed[j], email)
      {
        if listed[i].email == Some(email) && listed[i].role == Some("writer") {
          return;
        }
      }
      permissions := permissions + [EditorGrant(email)];
    }
  }
}
