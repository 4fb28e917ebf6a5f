/** What `create_jira_issues_for_failures` does to the two services: it touches only
    the Jira Issue column at the rows it writes back to, every issue it returns is a
    ticket it filed, rows that already carry a reference are left alone, and for the
    single row `update_status` passes it either files one issue and writes its URL or
    has no effect at all. */
module EscalationProperties {
  import opened Wrappers
  import opened Lists
  import opened Errors
  import opened Spreadsheet
  import opened Jira

  /** Every cell that differs between `g` and `g'` lies in column `col`, at a sheet row
      (1-based) listed in `sheetRows`. */
  ghost predicate OnlyCellsIn(g: seq<seq<string>>, g': seq<seq<string>>, col: nat, sheetRows: seq<nat>) {
    forall r: nat, c: nat :: CellAt(g', r, c) != CellAt(g, r, c) ==> c == col && r + 1 in sheetRows
  }

  /** The parts of the spreadsheet the escalator never changes stay, and its log only grows. */
  predicate SheetFrame(s: SheetState, s': SheetState) {
    s'.overview == s.overview && s'.colors == s.colors && s'.tabs == s.tabs && s.log <= s'.log
  }

  /** Going from `t` to `t'` the issue list grew from `acc` to `issues`, and the tickets
      filed meanwhile are exactly the new issues, in order. */
  predicate Filed(t: TrackerState, t': TrackerState, acc: seq<Issue>, issues: seq<Issue>) {
    |acc| <= |issues| && issues[..|acc|] == acc && t.tickets <= t'.tickets
    && |t'.tickets| - |t.tickets| == |issues| - |acc|
    && forall k :: |acc| <= k < |issues| ==> t'.tickets[|t.tickets| + k - |acc|].key == issues[k].jiraKey
  }

  lemma OnlyCellsTrans(g0: seq<seq<string>>, g1: seq<seq<string>>, g2: seq<seq<string>>, col: nat,
                       first: nat, rest: seq<nat>)
    requires OnlyCellsIn(g0, g1, col, [first]) && OnlyCellsIn(g1, g2, col, rest)
    ensures OnlyCellsIn(g0, g2, col, [first] + rest)
  {
    forall r: nat, c: nat | CellAt(g2, r, c) != CellAt(g0, r, c)
      ensures c == col && r + 1 in [first] + rest
    {
      if CellAt(g1, r, c) != CellAt(g0, r, c) {
        assert r + 1 in [first];
      } else {
        assert r + 1 in rest;
      }
    }
  }

  lemma FiledTrans(t0: TrackerState, t1: TrackerState, t2: TrackerState,
                   acc0: seq<Issue>, acc1: seq<Issue>, acc2: seq<Issue>)
    requires Filed(t0, t1, acc0, acc1) && Filed(t1, t2, acc1, acc2)
    ensures Filed(t0, t2, acc0, acc2)
  {
    assert acc2[..|acc0|] == acc1[..|acc0|];
    assert t2.tickets[..|t0.tickets|] == t1.tickets[..|t0.tickets|];
    forall k | |acc0| <= k < |acc2|
      ensures t2.tickets[|t0.tickets| + k - |acc0|].key == acc2[k].jiraKey
    {
      if k < |acc1| {
        assert t2.tickets[|t0.tickets| + k - |acc0|] == t1.tickets[|t0.tickets| + k - |acc0|];
        assert acc2[k] == acc1[k];
      }
    }
  }

  /** A pass of the loop that goes on keeps the frame, changes at most the Jira cell of
      sheet row `place`, and files at most the one issue it adds to `acc`. */
  ghost predicate StepEffects(w: World, cols: Columns, place: nat, acc: seq<Issue>, step: Step) {
    step.Next? ==>
      SheetFrame(w.sheet, step.world.sheet)
      && OnlyCellsIn(w.sheet.grid, step.world.sheet.grid, cols.jira, [place])
      && Filed(w.tracker, step.world.tracker, acc, step.acc) && |step.acc| <= |acc| + 1
      && (|step.acc| == |acc| ==> step.world.sheet == w.sheet)
  }

  /** The issue `create_jira_issues_for_failures` records for `row`, and the ticket
      filed for it: the row's ID, the summary built from its title and ID, and a Bug in
      project NQ with that summary and the description built from the row, `now` and
      the spreadsheet's URL. */
  predicate IssueFrom(issue: Issue, ticket: Ticket, row: seq<string>, cols: Columns, spreadsheetId: string,
                      now: string)
  {
    Readable(row, cols) && issue.testCaseId == row[cols.id] && issue.summary == Summary(row[cols.title], row[cols.id])
    && ticket == Ticket(issue.jiraKey, IssueFieldsFor(issue.summary,
                          Description(row[cols.id], row[cols.desc], row[cols.steps], row[cols.expected], now,
                                      GetUrl(spreadsheetId))))
  }

  /** A pass of the loop that records an issue records the one `IssueFrom` its row gives,
      with the first ticket it files. */
  ghost predicate StepIssue(w: World, spreadsheetId: string, cols: Columns, row: seq<string>, now: string,
                            acc: seq<Issue>, step: Step)
  {
    step.Next? && |step.acc| == |acc| + 1 ==>
      |step.world.tracker.tickets| > |w.tracker.tickets|
      && IssueFrom(step.acc[|acc|], step.world.tracker.tickets[|w.tracker.tickets|], row, cols, spreadsheetId, now)
  }

  /** The issue one pass of the loop records comes from its row. */
  lemma EscalateRowIssue(w: World, spreadsheetId: string, cols: Columns, row: seq<string>, place: nat,
                         now: string, acc: seq<Issue>)
    requires cols.jira < 26 && place >= 1
    ensures StepIssue(w, spreadsheetId, cols, row, now, acc, EscalateRow(w, spreadsheetId, cols, row, place, now, acc))
            == true
  {
    var step := EscalateRow(w, spreadsheetId, cols, row, place, now, acc);
    if !HasReference(row, cols) && Readable(row, cols) {
      var summary := Summary(row[cols.title], row[cols.id]);
      var description := Description(row[cols.id], row[cols.desc], row[cols.steps], row[cols.expected],
                                     now, GetUrl(spreadsheetId));
      var (reply, t) := CreateIssue(w.tracker, summary, description);
      if reply.Some? {
        var issue := Issue(row[cols.id], reply.value.key, summary);
        assert step == Next(World(WriteCell(w.sheet, cols.jira, place, IssueUrl(reply.value.key)), t), acc + [issue]);
        assert t.tickets[|w.tracker.tickets|] == Ticket(reply.value.key, IssueFieldsFor(summary, description));
      }
    }
  }

  /** Writing one cell through `update_cell` keeps the frame and changes only that cell. */
  lemma WriteCellFrame(s: SheetState, col: nat, row: nat, value: string)
    requires col < 26 && row >= 1
    ensures SheetFrame(s, WriteCell(s, col, row, value))
    ensures OnlyCellsIn(s.grid, WriteCell(s, col, row, value).grid, col, [row])
  {
    var g' := WriteCell(s, col, row, value).grid;
    forall r: nat, c: nat | CellAt(g', r, c) != CellAt(s.grid, r, c)
      ensures c == col && r + 1 in [row]
    {
    }
  }

  /** One pass of the loop: it raises exactly on an unreferenced row too short to read,
      and otherwise changes at most the Jira cell of row `place` and files at most the
      one issue it returns. */
  lemma EscalateRowEffects(w: World, spreadsheetId: string, cols: Columns, row: seq<string>, place: nat,
                           now: string, acc: seq<Issue>)
    requires cols.jira < 26 && place >= 1
    ensures EscalateRow(w, spreadsheetId, cols, row, place, now, acc).Raise?
            <==> !HasReference(row, cols) && !Readable(row, cols)
    ensures StepEffects(w, cols, place, acc, EscalateRow(w, spreadsheetId, cols, row, place, now, acc)) == true
  {
    var step := EscalateRow(w, spreadsheetId, cols, row, place, now, acc);
    if HasReference(row, cols) {
      assert OnlyCellsIn(w.sheet.grid, w.sheet.grid, cols.jira, [place]);
      assert acc[..|acc|] == acc;
    } else if Readable(row, cols) {
      var summary := Summary(row[cols.title], row[cols.id]);
      var description := Description(row[cols.id], row[cols.desc], row[cols.steps], row[cols.expected],
                                     now, GetUrl(spreadsheetId));
      var (reply, t) := CreateIssue(w.tracker, summary, description);
      if reply.Some? {
        var issue := Issue(row[cols.id], reply.value.key, summary);
        assert step == Next(World(WriteCell(w.sheet, cols.jira, place, IssueUrl(reply.value.key)), t), acc + [issue]);
        WriteCellFrame(w.sheet, cols.jira, place, IssueUrl(reply.value.key));
        assert (acc + [issue])[..|acc|] == acc;
      } else {
        assert step == Next(w.(tracker := t), acc);
        assert OnlyCellsIn(w.sheet.grid, w.sheet.grid, cols.jira, [place]);
        assert acc[..|acc|] == acc;
      }
    }
  }

  /** The loop from position `i` on changes only Jira cells at the rows `places[i..]`
      name, never the colours, sheets or overview, and, when it completes, returns one
      issue per ticket it filed and no more issues than rows. */
  lemma {:induction false} EscalateFromEffects(w: World, spreadsheetId: string, cols: Columns, rows: seq<seq<string>>,
                                               places: seq<nat>, now: string, i: nat, acc: seq<Issue>)
    requires cols.jira < 26 && ValidPlaces(rows, places) && i <= |rows|
    ensures var run := EscalateFrom(w, spreadsheetId, cols, rows, places, now, i, acc);
            SheetFrame(w.sheet, run.world.sheet)
            && OnlyCellsIn(w.sheet.grid, run.world.sheet.grid, cols.jira, places[i..])
            && w.tracker.tickets <= run.world.tracker.tickets
            && (run.result.Ok? ==> Filed(w.tracker, run.world.tracker, acc, run.result.value)
                                   && |run.result.value| <= |acc| + |rows| - i)
    decreases |rows| - i
  {
    if i < |rows| {
      var step := EscalateRow(w, spreadsheetId, cols, rows[i], places[i], now, acc);
      EscalateRowEffects(w, spreadsheetId, cols, rows[i], places[i], now, acc);
      if step.Next? {
        EscalateFromEffects(step.world, spreadsheetId, cols, rows, places, now, i + 1, step.acc);
        var run := EscalateFrom(step.world, spreadsheetId, cols, rows, places, now, i + 1, step.acc);
        assert places[i..] == [places[i]] + places[i + 1..];
        OnlyCellsTrans(w.sheet.grid, step.world.sheet.grid, run.world.sheet.grid, cols.jira, places[i], places[i + 1..]);
        if run.result.Ok? {
          FiledTrans(w.tracker, step.world.tracker, run.world.tracker, acc, step.acc, run.result.value);
        }
      }
    }
  }

  /** A run of the loop from position `i` on that files no ticket writes nothing: the
      URL is written only for an issue the tracker returned. */
  lemma {:induction false} EscalateFromNoTicket(w: World, spreadsheetId: string, cols: Columns, rows: seq<seq<string>>,
                                                places: seq<nat>, now: string, i: nat, acc: seq<Issue>)
    requires cols.jira < 26 && ValidPlaces(rows, places) && i <= |rows|
    ensures |EscalateFrom(w, spreadsheetId, cols, rows, places, now, i, acc).world.tracker.tickets| == |w.tracker.tickets|
            ==> EscalateFrom(w, spreadsheetId, cols, rows, places, now, i, acc).world.sheet == w.sheet
    decreases |rows| - i
  {
    if i < |rows| {
      var step := EscalateRow(w, spreadsheetId, cols, rows[i], places[i], now, acc);
      EscalateRowEffects(w, spreadsheetId, cols, rows[i], places[i], now, acc);
      if step.Next? {
        EscalateFromNoTicket(step.world, spreadsheetId, cols, rows, places, now, i + 1, step.acc);
        EscalateFromEffects(step.world, spreadsheetId, cols, rows, places, now, i + 1, step.acc);
      }
    }
  }

  /** The issues a completed run of the loop from position `i` on adds to `acc` come, in
      order, from distinct rows of `rows[i..]`: the k-th new issue and the k-th new
      ticket are those `IssueFrom` gives for row `src[k]`, and `src` increases. */
  lemma {:induction false} EscalateFromSources(w: World, spreadsheetId: string, cols: Columns, rows: seq<seq<string>>,
                                               places: seq<nat>, now: string, i: nat, acc: seq<Issue>)
    returns (src: seq<nat>)
    requires cols.jira < 26 && ValidPlaces(rows, places) && i <= |rows|
    ensures EscalateFrom(w, spreadsheetId, cols, rows, places, now, i, acc).result.Ok? ==>
              Sourced(w.tracker, EscalateFrom(w, spreadsheetId, cols, rows, places, now, i, acc), spreadsheetId, cols,
                      rows, now, i, acc, src)
    decreases |rows| - i
  {
    src := [];
    if i < |rows| {
      var step := EscalateRow(w, spreadsheetId, cols, rows[i], places[i], now, acc);
      EscalateRowEffects(w, spreadsheetId, cols, rows[i], places[i], now, acc);
      EscalateRowIssue(w, spreadsheetId, cols, rows[i], places[i], now, acc);
      if step.Next? {
        var rest := EscalateFromSources(step.world, spreadsheetId, cols, rows, places, now, i + 1, step.acc);
        var run := EscalateFrom(step.world, spreadsheetId, cols, rows, places, now, i + 1, step.acc);
        if run.result.Ok? {
          EscalateFromEffects(step.world, spreadsheetId, cols, rows, places, now, i + 1, step.acc);
          if |step.acc| == |acc| {
            src := rest;
            SourcedFromSkip(w.tracker, step.world.tracker, run, spreadsheetId, cols, rows, now, i, acc, src);
          } else {
            src := [i] + rest;
            SourcedFromIssue(w.tracker, step.world.tracker, run, spreadsheetId, cols, rows, now, i, acc, step.acc, rest);
          }
        }
      }
    } else {
      assert acc[..|acc|] == acc;
    }
  }

  /** `src` lists, in increasing order, the rows of `rows[i..]` the new issues of the
      completed run `run` came from, each with its ticket. */
  ghost predicate Sourced(t: TrackerState, run: Run<seq<Issue>>, spreadsheetId: string, cols: Columns,
                          rows: seq<seq<string>>, now: string, i: nat, acc: seq<Issue>, src: seq<nat>)
    requires run.result.Ok?
  {
    var issues := run.result.value;
    |acc| <= |issues| && issues[..|acc|] == acc
    && |src| == |issues| - |acc| && |t.tickets| + |src| <= |run.world.tracker.tickets|
    && (forall k :: 0 <= k < |src| ==>
          i <= src[k] < |rows|
          && IssueFrom(issues[|acc| + k], run.world.tracker.tickets[|t.tickets| + k], rows[src[k]], cols, spreadsheetId, now))
    && forall k1, k2 :: 0 <= k1 < k2 < |src| ==> src[k1] < src[k2]
  }

  /** A pass that records no issue: the sources of the run after it serve from `i`. */
  lemma SourcedFromSkip(t: TrackerState, t1: TrackerState, run: Run<seq<Issue>>, spreadsheetId: string, cols: Columns,
                        rows: seq<seq<string>>, now: string, i: nat, acc: seq<Issue>, src: seq<nat>)
    requires run.result.Ok? && i < |rows| && t.tickets == t1.tickets
    requires Sourced(t1, run, spreadsheetId, cols, rows, now, i + 1, acc, src)
    ensures Sourced(t, run, spreadsheetId, cols, rows, now, i, acc, src)
  {
  }

  /** A pass that records the issue of row `i`, filing one ticket: row `i` heads the sources. */
  lemma SourcedFromIssue(t: TrackerState, t1: TrackerState, run: Run<seq<Issue>>, spreadsheetId: string, cols: Columns,
                         rows: seq<seq<string>>, now: string, i: nat, acc: seq<Issue>, acc1: seq<Issue>, rest: seq<nat>)
    requires run.result.Ok? && i < |rows|
    requires |acc1| == |acc| + 1 && acc1[..|acc|] == acc
    requires |t1.tickets| == |t.tickets| + 1 && t.tickets <= t1.tickets && t1.tickets <= run.world.tracker.tickets
    requires IssueFrom(acc1[|acc|], t1.tickets[|t.tickets|], rows[i], cols, spreadsheetId, now)
    requires Sourced(t1, run, spreadsheetId, cols, rows, now, i + 1, acc1, rest)
    ensures Sourced(t, run, spreadsheetId, cols, rows, now, i, acc, [i] + rest)
  {
    var issues := run.result.value;
    var src := [i] + rest;
    assert issues[..|acc|] == issues[..|acc1|][..|acc|];
    assert issues[|acc|] == acc1[|acc|];
    assert run.world.tracker.tickets[|t.tickets|] == t1.tickets[|t.tickets|];
    forall k | 0 <= k < |src|
      ensures i <= src[k] < |rows|
      ensures IssueFrom(issues[|acc| + k], run.world.tracker.tickets[|t.tickets| + k], rows[src[k]], cols, spreadsheetId, now)
    {
      if k > 0 {
        assert src[k] == rest[k - 1];
        assert |acc| + k == |acc1| + (k - 1);
        assert |t.tickets| + k == |t1.tickets| + (k - 1);
      }
    }
  }

  /** `create_jira_issues_for_failures` as a whole never changes the colours, sheets
      or overview, only adds to the log and the tickets, writes nothing when it files no
      ticket, and a completed run returns exactly the issues it filed, no more than one
      per row. */
  lemma EscalateFrame(w: World, spreadsheetId: string, rows: seq<seq<string>>, places: seq<nat>, now: string)
    requires ValidPlaces(rows, places)
    ensures var run := Escalate(w, spreadsheetId, rows, places, now);
            SheetFrame(w.sheet, run.world.sheet) && w.tracker.tickets <= run.world.tracker.tickets
            && (run.result.Ok? ==> Filed(w.tracker, run.world.tracker, [], run.result.value)
                                   && |run.result.value| <= |rows|)
    ensures |Escalate(w, spreadsheetId, rows, places, now).world.tracker.tickets| == |w.tracker.tickets| ==>
            Escalate(w, spreadsheetId, rows, places, now).world.sheet == w.sheet
  {
    EscalateCells(w, spreadsheetId, rows, places, now);
    var values := Visible(w.sheet.grid);
    if |values| > 0 && ResolveColumns(values[0]).Ok? {
      EscalateFromNoTicket(w, spreadsheetId, ResolveColumns(values[0]).value, rows, places, now, 0, []);
    }
  }

  /** The issues a completed `create_jira_issues_for_failures` returns come, in order,
      from distinct failed rows, each with the ticket filed for it (`Sourced`). */
  lemma EscalateSources(w: World, spreadsheetId: string, rows: seq<seq<string>>, places: seq<nat>, now: string)
    returns (src: seq<nat>)
    requires ValidPlaces(rows, places)
    ensures Escalate(w, spreadsheetId, rows, places, now).result.Ok? ==>
              |Visible(w.sheet.grid)| > 0 && ResolveColumns(Visible(w.sheet.grid)[0]).Ok?
              && Sourced(w.tracker, Escalate(w, spreadsheetId, rows, places, now), spreadsheetId,
                         ResolveColumns(Visible(w.sheet.grid)[0]).value, rows, now, 0, [], src)
  {
    src := [];
    var values := Visible(w.sheet.grid);
    if |values| > 0 && ResolveColumns(values[0]).Ok? {
      src := EscalateFromSources(w, spreadsheetId, ResolveColumns(values[0]).value, rows, places, now, 0, []);
    }
  }

  /** An empty table or a missing header raises before any effect; otherwise only the
      Jira column, at the rows `places` names, changes. */
  lemma EscalateCells(w: World, spreadsheetId: string, rows: seq<seq<string>>, places: seq<nat>, now: string)
    requires ValidPlaces(rows, places)
    ensures var values := Visible(w.sheet.grid);
            |values| == 0 || ResolveColumns(values[0]).Err? ==> Escalate(w, spreadsheetId, rows, places, now).world == w
    ensures var values := Visible(w.sheet.grid);
            var run := Escalate(w, spreadsheetId, rows, places, now);
            |values| > 0 && ResolveColumns(values[0]).Ok? ==>
              OnlyCellsIn(w.sheet.grid, run.world.sheet.grid, ResolveColumns(values[0]).value.jira, places)
              && SheetFrame(w.sheet, run.world.sheet) && w.tracker.tickets <= run.world.tracker.tickets
              && (run.result.Ok? ==> Filed(w.tracker, run.world.tracker, [], run.result.value)
                                     && |run.result.value| <= |rows|)
  {
    var values := Visible(w.sheet.grid);
    if |values| > 0 && ResolveColumns(values[0]).Ok? {
      EscalateFromEffects(w, spreadsheetId, ResolveColumns(values[0]).value, rows, places, now, 0, []);
      assert places[0..] == places;
    }
  }

  /** Rows that already carry a reference, from position `i` on, are skipped without effect. */
  lemma {:induction false} SkipReferenced(w: World, spreadsheetId: string, cols: Columns, rows: seq<seq<string>>,
                                          places: seq<nat>, now: string, i: nat, acc: seq<Issue>)
    requires cols.jira < 26 && ValidPlaces(rows, places) && i <= |rows|
    requires forall j :: i <= j < |rows| ==> HasReference(rows[j], cols)
    ensures EscalateFrom(w, spreadsheetId, cols, rows, places, now, i, acc) == Run(w, Ok(acc))
    decreases |rows| - i
  {
    if i < |rows| {
      SkipReferenced(w, spreadsheetId, cols, rows, places, now, i + 1, acc);
    }
  }

  /** Escalating rows that all carry an issue reference files nothing and writes nothing. */
  lemma AllReferenced(w: World, spreadsheetId: string, rows: seq<seq<string>>, places: seq<nat>, now: string)
    requires ValidPlaces(rows, places)
    requires |Visible(w.sheet.grid)| > 0 && ResolveColumns(Visible(w.sheet.grid)[0]).Ok?
    requires forall j :: 0 <= j < |rows| ==> HasReference(rows[j], ResolveColumns(Visible(w.sheet.grid)[0]).value)
    ensures Escalate(w, spreadsheetId, rows, places, now) == Run(w, Ok([]))
  {
    SkipReferenced(w, spreadsheetId, ResolveColumns(Visible(w.sheet.grid)[0]).value, rows, places, now, 0, []);
  }

  /** With the columns `cols`, the row can be escalated from `w`: it has no reference
      and can be read, and the tracker's next reply carries an issue. */
  ghost predicate Escalable(w: World, cols: Columns, row: seq<string>) {
    !HasReference(row, cols) && Readable(row, cols) && |w.tracker.replies| > 0 && w.tracker.replies[0].Some?
  }

  /** What the single-row call promises once the header resolves to `cols`: an
      exception leaves both services as they were; one issue is returned exactly when
      the row is escalable, it is the issue `IssueFrom` gives for the row, filed as the
      one new ticket, and its URL is then in the Jira cell of sheet row `place`; with no
      issue returned the sheet is as it was. */
  ghost predicate OneRowOutcome(w: World, spreadsheetId: string, cols: Columns, row: seq<string>, place: nat,
                                now: string, run: Run<seq<Issue>>)
    requires place >= 1
  {
    (run.result.Err? ==> run.world == w)
    && (run.result.Ok? && |run.result.value| == 1 <==> Escalable(w, cols, row))
    && (run.result.Ok? && |run.result.value| == 0 ==> run.world.sheet == w.sheet)
    && (run.result.Ok? && |run.result.value| == 1 ==>
          |run.world.tracker.tickets| == |w.tracker.tickets| + 1
          && IssueFrom(run.result.value[0], run.world.tracker.tickets[|w.tracker.tickets|], row, cols, spreadsheetId, now)
          && CellAt(run.world.sheet.grid, place - 1, cols.jira) == IssueUrl(run.result.value[0].jiraKey))
  }

  /** The call `update_status` makes, once the header has resolved to `cols` (see
      `EscalateWith`), with the one located row written back to `place`: it files an
      issue exactly when the row has no reference and can be read and the tracker's next
      reply carries an issue, records the issue built from the row and writes its URL
      into the row's Jira cell; otherwise it writes nothing, and an exception leaves
      both services as they were. */
  lemma EscalateOne(w: World, spreadsheetId: string, cols: Columns, row: seq<string>, place: nat, now: string)
    requires cols.jira < 26 && place >= 1
    ensures OneRowOutcome(w, spreadsheetId, cols, row, place, now,
                          EscalateFrom(w, spreadsheetId, cols, [row], [place], now, 0, [])) == true
  {
    var step := EscalateRow(w, spreadsheetId, cols, row, place, now, []);
    EscalateFromSingle(w, spreadsheetId, cols, row, place, now);
    EscalateRowOnce(w, spreadsheetId, cols, row, place, now);
    EscalateRowEffects(w, spreadsheetId, cols, row, place, now, []);
    EscalateRowIssue(w, spreadsheetId, cols, row, place, now, []);
    OneRowFromStep(w, spreadsheetId, cols, row, place, now, step, StepRun(w, step));
  }

  /** A run that is one pass of the loop body, with the effects that pass is proved to
      have, has the outcome the single-row call promises. */
  lemma OneRowFromStep(w: World, spreadsheetId: string, cols: Columns, row: seq<string>, place: nat, now: string,
                       step: Step, run: Run<seq<Issue>>)
    requires place >= 1 && run == StepRun(w, step)
    requires RowStepFacts(w, cols, row, place, step) && StepEffects(w, cols, place, [], step)
    requires StepIssue(w, spreadsheetId, cols, row, now, [], step)
    ensures OneRowOutcome(w, spreadsheetId, cols, row, place, now, run) == true
  {
    if step.Next? {
      assert Filed(w.tracker, step.world.tracker, [], step.acc);
      if |step.acc| == 1 {
        assert step.world.tracker.tickets[|w.tracker.tickets| + 0 - 0].key == step.acc[0].jiraKey;
      }
    }
  }

  /** The outcome of a run that ends after one step from `w`. */
  function StepRun(w: World, step: Step): (run: Run<seq<Issue>>)
    ensures step.Raise? ==> run == Run(w, Err(step.error))
    ensures step.Next? ==> run == Run(step.world, Ok(step.acc))
  {
    match step
    case Raise(x) => Run(w, Err(x))
    case Next(w', acc) => Run(w', Ok(acc))
  }

  /** An empty table or a header that does not resolve: the escalator raises and
      changes nothing. */
  lemma EscalateUnresolved(w: World, spreadsheetId: string, rows: seq<seq<string>>, places: seq<nat>, now: string)
    requires ValidPlaces(rows, places)
    requires |Visible(w.sheet.grid)| == 0 || ResolveColumns(Visible(w.sheet.grid)[0]).Err?
    ensures Escalate(w, spreadsheetId, rows, places, now).world == w
    ensures Escalate(w, spreadsheetId, rows, places, now).result.Err?
  {
  }

  /** The loop over a single row is the loop body on that row. */
  lemma EscalateFromSingle(w: World, spreadsheetId: string, cols: Columns, row: seq<string>, place: nat, now: string)
    requires cols.jira < 26 && place >= 1
    ensures EscalateFrom(w, spreadsheetId, cols, [row], [place], now, 0, [])
            == StepRun(w, EscalateRow(w, spreadsheetId, cols, row, place, now, []))
  {
    var step := EscalateRow(w, spreadsheetId, cols, row, place, now, []);
    if step.Next? {
      assert EscalateFrom(step.world, spreadsheetId, cols, [row], [place], now, 1, step.acc) == Run(step.world, Ok(step.acc));
    }
  }

  /** With a header that resolves to `cols`, the escalator is its loop from the first row. */
  lemma EscalateWith(w: World, spreadsheetId: string, cols: Columns, rows: seq<seq<string>>, places: seq<nat>,
                     now: string)
    requires ValidPlaces(rows, places)
    requires |Visible(w.sheet.grid)| > 0 && ResolveColumns(Visible(w.sheet.grid)[0]) == Ok(cols)
    ensures cols.jira < 26
    ensures Escalate(w, spreadsheetId, rows, places, now) == EscalateFrom(w, spreadsheetId, cols, rows, places, now, 0, [])
  {
  }

  /** What one pass of the loop body from `w`, with no issue recorded yet, does with the
      row: it raises exactly when the row is unreferenced and too short; otherwise it
      keeps the frame, changes only the Jira cell of sheet row `place` and files at most
      one ticket, which it does exactly when the row is unreferenced and readable and the
      next reply carries an issue, the issue's URL then being in that cell; filing none,
      it leaves the sheet as it was. */
  ghost predicate RowStepFacts(w: World, cols: Columns, row: seq<string>, place: nat, step: Step)
    requires place >= 1
  {
    (step.Raise? <==> !HasReference(row, cols) && !Readable(row, cols))
    && (step.Next? ==>
          SheetFrame(w.sheet, step.world.sheet) && OnlyCellsIn(w.sheet.grid, step.world.sheet.grid, cols.jira, [place])
          && w.tracker.tickets <= step.world.tracker.tickets
          && |step.world.tracker.tickets| <= |w.tracker.tickets| + 1)
    && (step.Next? && |step.world.tracker.tickets| == |w.tracker.tickets| + 1
        <==> !HasReference(row, cols) && Readable(row, cols) && |w.tracker.replies| > 0 && w.tracker.replies[0].Some?)
    && (step.Next? && |step.world.tracker.tickets| == |w.tracker.tickets| + 1 ==>
          CellAt(step.world.sheet.grid, place - 1, cols.jira) == IssueUrl(step.world.tracker.tickets[|w.tracker.tickets|].key))
    && (step.Next? && |step.world.tracker.tickets| == |w.tracker.tickets| ==> step.world.sheet == w.sheet)
  }

  /** The loop body on one row with no issue recorded yet meets `RowStepFacts`. */
  lemma EscalateRowOnce(w: World, spreadsheetId: string, cols: Columns, row: seq<string>, place: nat, now: string)
    requires cols.jira < 26 && place >= 1
    ensures RowStepFacts(w, cols, row, place, EscalateRow(w, spreadsheetId, cols, row, place, now, []))
  {
    EscalateRowEffects(w, spreadsheetId, cols, row, place, now, []);
  }
}
