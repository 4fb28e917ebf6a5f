/** The escalator of tools/jira.py: filing one Bug per failed test-case row that has
    no issue reference yet and writing the issue's URL back into the Test Cases sheet.
    The issue tracker is an oracle: each creation call consumes the next reply, and
    only a reply that carries an issue records a ticket. */
module Jira {
  import opened Wrappers
  import opened Lists
  import opened Errors
  import opened Spreadsheet

  const ProjectKey := "NQ"
  const IssueTypeName := "Bug"
  const IssueUrlPrefix := "https://nextgen-qa.atlassian.net/jira/software/c/projects/NQ/issues/"
  const JiraHeader := "Jira Issue"
  const SummaryPrefix := "Failed Test Case: "
  const FailedLead := "\nTest Case Failed: "

  /** What `create_issue` returns on success: the issue's key and self link. */
  datatype IssueRef = IssueRef(key: string, self: string)

  /** The `fields` of the creation request. */
  datatype IssueFields = IssueFields(project: string, summary: string, description: string, issueType: string)

  datatype Ticket = Ticket(key: string, fields: IssueFields)

  /** The tracker: the replies it will give to the next creation calls (`None` is a
      call that raised, which `create_issue` turns into None; no reply left counts as
      one too) and the tickets it holds. */
  datatype TrackerState = TrackerState(replies: seq<Option<IssueRef>>, tickets: seq<Ticket>)

  /** One entry of the list `create_jira_issues_for_failures` returns. */
  datatype Issue = Issue(testCaseId: string, jiraKey: string, summary: string)

  /** The two external services together. */
  datatype World = World(sheet: SheetState, tracker: TrackerState)

  /** The state after an operation and what it returned or raised; effects made
      before an exception stay in `world`. */
  datatype Run<T> = Run(world: World, result: Result<T, Exception>)

  /** The header positions `create_jira_issues_for_failures` looks up. */
  datatype Columns = Columns(id: nat, title: nat, desc: nat, steps: nat, expected: nat, jira: nat)

  function IssueFieldsFor(summary: string, description: string): IssueFields {
    IssueFields(ProjectKey, summary, description, IssueTypeName)
  }

  /** `create_issue`: a ticket is recorded exactly when the tracker's reply carries an issue. */
  function CreateIssue(t: TrackerState, summary: string, description: string): (out: (Option<IssueRef>, TrackerState))
    ensures out.0.Some? ==> out.1.tickets == t.tickets + [Ticket(out.0.value.key, IssueFieldsFor(summary, description))]
    ensures out.0.None? ==> out.1.tickets == t.tickets
    ensures |t.replies| > 0 ==> out.0 == t.replies[0] && out.1.replies == t.replies[1..]
    ensures |t.replies| == 0 ==> out.0.None? && out.1 == t
  {
    if |t.replies| == 0 then (None, t)
    else match t.replies[0]
      case None => (None, t.(replies := t.replies[1..]))
      case Some(ref) =>
        (Some(ref), TrackerState(t.replies[1..], t.tickets + [Ticket(ref.key, IssueFieldsFor(summary, description))]))
  }

  /** The issue summary. */
  function Summary(title: string, id: string): string {
    SummaryPrefix + title + " (" + id + ")"
  }

  /** The title follows a fixed prefix in the summary and the id closes it in parentheses. */
  lemma SummaryFields(title: string, id: string)
    ensures |Summary(title, id)| == |SummaryPrefix| + |title| + |id| + 3
    ensures Summary(title, id)[..|SummaryPrefix|] == SummaryPrefix
    ensures Summary(title, id)[|SummaryPrefix|..|SummaryPrefix| + |title|] == title
    ensures Summary(title, id)[|Summary(title, id)| - |id| - 1..|Summary(title, id)| - 1] == id
  {
    var s := Summary(title, id);
    assert s == (SummaryPrefix + title) + (" (" + id + ")");
  }

  /** The issue body; `now` is the formatted `datetime.now()`. */
  function Description(id: string, desc: string, steps: string, expected: string, now: string, url: string): string {
    FailedLead + id + "\n\nDescription:\n" + desc
    + "\n\nSteps to Reproduce:\n" + steps
    + "\n\nExpected Results:\n" + expected
    + "\n\nTest Environment:\n- Date: " + now + "\n- Spreadsheet: " + url + "\n"
  }

  /** The body opens with the id of the failed case and ends with the spreadsheet's link. */
  lemma DescriptionFields(id: string, desc: string, steps: string, expected: string, now: string, url: string)
    ensures |Description(id, desc, steps, expected, now, url)| > |FailedLead| + |id| + |url|
    ensures Description(id, desc, steps, expected, now, url)[..|FailedLead|] == FailedLead
    ensures Description(id, desc, steps, expected, now, url)[|FailedLead|..|FailedLead| + |id|] == id
    ensures var d := Description(id, desc, steps, expected, now, url);
            d[|d| - |url| - 1..|d| - 1] == url
  {
  }

  /** The browse link of a ticket. */
  function IssueUrl(key: string): string {
    IssueUrlPrefix + key
  }

  /** The key reads back from its link, so distinct keys give distinct links and the
      link in a row names its ticket. */
  lemma IssueUrlInjective(a: string, b: string)
    ensures IssueUrl(a) == IssueUrl(b) ==> a == b
  {
    if IssueUrl(a) == IssueUrl(b) {
      assert a == IssueUrl(a)[|IssueUrlPrefix|..];
      assert b == IssueUrl(b)[|IssueUrlPrefix|..];
    }
  }

  /** The six header lookups: the first missing one of ID, Title, Description, Steps
      and Expected Results raises; an absent Jira Issue header means the column just
      past the header. */
  function ResolveColumns(headers: seq<string>): (r: Result<Columns, Exception>)
    ensures r.Ok? ==> r.value.id < |headers| && headers[r.value.id] == "ID"
    ensures r.Ok? ==> r.value.title < |headers| && headers[r.value.title] == "Title"
    ensures r.Ok? ==> r.value.desc < |headers| && headers[r.value.desc] == "Description"
    ensures r.Ok? ==> r.value.steps < |headers| && headers[r.value.steps] == "Steps"
    ensures r.Ok? ==> r.value.expected < |headers| && headers[r.value.expected] == "Expected Results"
    ensures r.Ok? ==> if JiraHeader in headers then r.value.jira < |headers| && headers[r.value.jira] == JiraHeader
                      else r.value.jira == |headers|
    ensures r.Err? <==> !("ID" in headers && "Title" in headers && "Description" in headers
                          && "Steps" in headers && "Expected Results" in headers)
  {
    match (IndexOf(headers, "ID"), IndexOf(headers, "Title"), IndexOf(headers, "Description"),
           IndexOf(headers, "Steps"), IndexOf(headers, "Expected Results"))
    case (None, _, _, _, _) => Err(NotInList("ID"))
    case (_, None, _, _, _) => Err(NotInList("Title"))
    case (_, _, None, _, _) => Err(NotInList("Description"))
    case (_, _, _, None, _) => Err(NotInList("Steps"))
    case (_, _, _, _, None) => Err(NotInList("Expected Results"))
    case (Some(i), Some(t), Some(d), Some(s), Some(e)) =>
      var j := match IndexOf(headers, JiraHeader) case Some(k) => k case None => |headers|;
      Ok(Columns(i, t, d, s, e, j))
  }

  /** Each column `ResolveColumns` finds is the FIRST position of its header name, as
      `headers.index` gives it, the Jira column that of Jira Issue when present; the
      ValueError raised is that of the first name missing, in the order ID, Title,
      Description, Steps, Expected Results. */
  lemma ResolveColumnsFirst(headers: seq<string>)
    ensures ResolveColumns(headers).Ok? ==>
              IndexOf(headers, "ID") == Some(ResolveColumns(headers).value.id)
              && IndexOf(headers, "Title") == Some(ResolveColumns(headers).value.title)
              && IndexOf(headers, "Description") == Some(ResolveColumns(headers).value.desc)
              && IndexOf(headers, "Steps") == Some(ResolveColumns(headers).value.steps)
              && IndexOf(headers, "Expected Results") == Some(ResolveColumns(headers).value.expected)
              && (IndexOf(headers, JiraHeader) == Some(ResolveColumns(headers).value.jira)
                  || (JiraHeader !in headers && ResolveColumns(headers).value.jira == |headers|))
    ensures ResolveColumns(headers) == Err(NotInList("ID")) <==> "ID" !in headers
    ensures ResolveColumns(headers) == Err(NotInList("Title")) <==> "ID" in headers && "Title" !in headers
    ensures ResolveColumns(headers) == Err(NotInList("Description"))
            <==> "ID" in headers && "Title" in headers && "Description" !in headers
    ensures ResolveColumns(headers) == Err(NotInList("Steps"))
            <==> "ID" in headers && "Title" in headers && "Description" in headers && "Steps" !in headers
    ensures ResolveColumns(headers) == Err(NotInList("Expected Results"))
            <==> "ID" in headers && "Title" in headers && "Description" in headers && "Steps" in headers
                 && "Expected Results" !in headers
  {
  }

  /** The row already carries an issue reference: `len(row) > jira_col and row[jira_col]`. */
  predicate HasReference(row: seq<string>, cols: Columns) {
    cols.jira < |row| && row[cols.jira] != ""
  }

  /** Every cell the summary and description read exists in the row. */
  predicate Readable(row: seq<string>, cols: Columns) {
    cols.id < |row| && cols.title < |row| && cols.desc < |row| && cols.steps < |row| && cols.expected < |row|
  }

  /** The rows `failed_rows.index(row) + 2` names: the 1-based position of the first
      equal element of the argument list, plus one for the header. */
  function ArgumentRows(rows: seq<seq<string>>): (places: seq<nat>)
    ensures |places| == |rows|
    ensures forall i :: 0 <= i < |rows| ==>
      2 <= places[i] <= i + 2 && rows[places[i] - 2] == rows[i]
      && forall j :: 0 <= j < places[i] - 2 ==> rows[j] != rows[i]
  {
    seq(|rows|, i requires 0 <= i < |rows| => IndexOf(rows, rows[i]).value + 2)
  }

  predicate ValidPlaces(rows: seq<seq<string>>, places: seq<nat>) {
    |places| == |rows| && forall i :: 0 <= i < |places| ==> places[i] >= 1
  }

  /** What processing one row leads to: the next state and issue list, or an exception. */
  datatype Step = Next(world: World, acc: seq<Issue>) | Raise(error: Exception)

  /** The body of the loop over `failed_rows` for one row whose issue URL goes to sheet
      row `place`. A row with a reference is skipped; a row too short for the summary or
      description raises outside the try block; otherwise the tracker is called and, only
      on success, the issue is recorded and its URL written. */
  function EscalateRow(w: World, spreadsheetId: string, cols: Columns, row: seq<string>, place: nat,
                       now: string, acc: seq<Issue>): (step: Step)
    requires cols.jira < 26 && place >= 1
  {
    if HasReference(row, cols) then Next(w, acc)
    else if !Readable(row, cols) then Raise(IndexOutOfRange)
    else
      var summary := Summary(row[cols.title], row[cols.id]);
      var description := Description(row[cols.id], row[cols.desc], row[cols.steps], row[cols.expected],
                                     now, GetUrl(spreadsheetId));
      var (reply, t) := CreateIssue(w.tracker, summary, description);
      match reply
      case None => Next(w.(tracker := t), acc)
      case Some(ref) =>
        Next(World(WriteCell(w.sheet, cols.jira, place, IssueUrl(ref.key)), t),
             acc + [Issue(row[cols.id], ref.key, summary)])
  }

  /** The loop over `failed_rows` from position `i` on, with the issues created so far
      in `acc`; the URL of `rows[i]` goes to sheet row `places[i]`. */
  function EscalateFrom(w: World, spreadsheetId: string, cols: Columns, rows: seq<seq<string>>,
                        places: seq<nat>, now: string, i: nat, acc: seq<Issue>): (run: Run<seq<Issue>>)
    requires cols.jira < 26 && ValidPlaces(rows, places) && i <= |rows|
    decreases |rows| - i
  {
    if i == |rows| then Run(w, Ok(acc))
    else match EscalateRow(w, spreadsheetId, cols, rows[i], places[i], now, acc)
      case Raise(e) => Run(w, Err(e))
      case Next(w', acc') => EscalateFrom(w', spreadsheetId, cols, rows, places, now, i + 1, acc')
  }

  /** `create_jira_issues_for_failures`, writing the URL of `rows[i]` to row `places[i]`:
      it re-reads the Test Cases table, resolves the columns and runs the loop. */
  function Escalate(w: World, spreadsheetId: string, rows: seq<seq<string>>, places: seq<nat>, now: string): (run: Run<seq<Issue>>)
    requires ValidPlaces(rows, places)
  {
    var values := Visible(w.sheet.grid);
    if |values| == 0 then Run(w, Err(IndexOutOfRange))
    else match ResolveColumns(values[0])
      case Err(e) => Run(w, Err(e))
      case Ok(cols) => EscalateFrom(w, spreadsheetId, cols, rows, places, now, 0, [])
  }

  /** The tracker service bound to the NQ project. */
  class IssueTracker {
    var replies: seq<Option<IssueRef>>
    var tickets: seq<Ticket>

    function State(): TrackerState
      reads this
    {
      TrackerState(replies, tickets)
    }

    constructor (t: TrackerState)
      ensures State() == t
    {
      replies, tickets := t.replies, t.tickets;
    }

    /** `create_issue`; every exception of the call becomes None. */
    method Create(summary: string, description: string) returns (reply: Option<IssueRef>)
      modifies this
      ensures (reply, State()) == CreateIssue(old(State()), summary, description)
    {
      if |replies| == 0 {
        reply := None;
      } else {
        reply := replies[0];
        replies := replies[1..];
        if reply.Some? {
          tickets := tickets + [Ticket(reply.value.key, IssueFieldsFor(summary, description))];
        }
      }
    }
  }

  /** One pass of the loop body over `failedRows[i]`. */
  method EscalateRowAt(sheet: SheetService, tracker: IssueTracker, spreadsheetId: string, cols: Columns,
                       failedRows: seq<seq<string>>, ghost places: seq<nat>, i: nat, now: string, created: seq<Issue>)
    returns (step: Step)
    requires cols.jira < 26 && i < |failedRows| && places == ArgumentRows(failedRows)
    modifies sheet, tracker
    ensures step.Raise? ==> World(sheet.State(), tracker.State()) == old(World(sheet.State(), tracker.State()))
    ensures step.Raise? ==>
      EscalateFrom(old(World(sheet.State(), tracker.State())), spreadsheetId, cols, failedRows, places, now, i, created)
      == Run(old(World(sheet.State(), tracker.State())), Err(step.error))
    ensures step.Next? ==>
      EscalateFrom(old(World(sheet.State(), tracker.State())), spreadsheetId, cols, failedRows, places, now, i, created)
      == EscalateFrom(World(sheet.State(), tracker.State()), spreadsheetId, cols, failedRows, places, now, i + 1, step.acc)
  {
    var row := failedRows[i];
    if HasReference(row, cols) {
      return Next(World(sheet.State(), tracker.State()), created);
    }
    if !Readable(row, cols) {
      return Raise(IndexOutOfRange);
    }
    var summary := Summary(row[cols.title], row[cols.id]);
    var description := Description(row[cols.id], row[cols.desc], row[cols.steps], row[cols.expected],
                                   now, GetUrl(spreadsheetId));
    var reply := tracker.Create(summary, description);
    var issues := created;
    if reply.Some? {
      issues := created + [Issue(row[cols.id], reply.value.key, summary)];
      var rowNum := IndexOf(failedRows, row).value + 2;
      sheet.UpdateCell(cols.jira, rowNum, IssueUrl(reply.value.key));
    }
    return Next(World(sheet.State(), tracker.State()), issues);
  }

  /** The table re-read and the six header lookups made before the loop over the failures. */
  method ReadHeaderColumns(sheet: SheetService) returns (r: Result<Columns, Exception>)
    ensures var values := Visible(sheet.grid);
            r == if |values| == 0 then Err(IndexOutOfRange) else ResolveColumns(values[0])
    ensures r.Ok? ==> r.value.jira < 26
  {
    var testCases := sheet.GetTestCaseData();
    if |testCases| == 0 {
      return Err(IndexOutOfRange);
    }
    var headers := testCases[0];
    r := ResolveColumns(headers);
  }

  /** The loop over `failed_rows`, once the columns are known. */
  method EscalateRows(sheet: SheetService, tracker: IssueTracker, spreadsheetId: string, cols: Columns,
                      failedRows: seq<seq<string>>, now: string)
    returns (r: Result<seq<Issue>, Exception>)
    requires cols.jira < 26
    modifies sheet, tracker
    ensures Run(World(sheet.State(), tracker.State()), r)
            == EscalateFrom(old(World(sheet.State(), tracker.State())), spreadsheetId, cols, failedRows,
                            ArgumentRows(failedRows), now, 0, [])
  {
    ghost var w0 := World(sheet.State(), tracker.State());
    ghost var places := ArgumentRows(failedRows);
    assert ValidPlaces(failedRows, places);
    var created: seq<Issue> := [];
    var i := 0;
    while i < |failedRows|
      invariant 0 <= i <= |failedRows|
      invariant EscalateFrom(World(sheet.State(), tracker.State()), spreadsheetId, cols, failedRows, places, now, i, created)
                == EscalateFrom(w0, spreadsheetId, cols, failedRows, places, now, 0, [])
    {
      var step := EscalateRowAt(sheet, tracker, spreadsheetId, cols, failedRows, places, i, now, created);
      if step.Raise? {
        return Err(step.error);
      }
      created := step.acc;
      i := i + 1;
    }
    return Ok(created);
  }

  /** `create_jira_issues_for_failures` as written: the URL goes to row
      `failed_rows.index(row) + 2`. */
  method CreateJiraIssuesForFailures(sheet: SheetService, tracker: IssueTracker, spreadsheetId: string,
                                     failedRows: seq<seq<string>>, now: string)
    returns (r: Result<seq<Issue>, Exception>)
    modifies sheet, tracker
    ensures Run(World(sheet.State(), tracker.State()), r)
            == Escalate(old(World(sheet.State(), tracker.State())), spreadsheetId, failedRows, ArgumentRows(failedRows), now)
  {
    var resolved := ReadHeaderColumns(sheet);
    if resolved.Err? {
      return Err(resolved.error);
    }
    r := EscalateRows(sheet, tracker, spreadsheetId, resolved.value, failedRows, now);
  }
}
