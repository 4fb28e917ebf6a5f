/** What `update_statuses` promises about a batch: it aborts exactly when some update
    has no 'id' key, otherwise every update is counted once, as a success or as a
    recorded failure; a batch whose every update is rejected leaves both services as
    they were; and the report lists the failures in order after the success count. */
module BatchProperties {
  import opened Wrappers
  import opened Errors
  import opened Spreadsheet
  import opened Jira
  import opened TestCaseManager

  /** Some update from position `i` on has no 'id' key. */
  predicate MissingId(updates: seq<Update>, i: nat) {
    exists j :: i <= j < |updates| && updates[j].id.None?
  }

  /** The update is rejected before any effect: it has an id and either no status or
      one outside the vocabulary. */
  predicate Rejected(u: Update) {
    u.id.Some? && (u.status.None? || u.status.value !in ValidStatuses)
  }

  /** The loop from position `i` on raises exactly when a later update has no 'id' key,
      and the exception is that KeyError; otherwise each remaining update adds exactly
      one entry, to the results or to the failures, after those already tallied. */
  lemma {:induction false} BatchFromOutcome(w: World, spreadsheetId: string, updates: seq<Update>, now: string,
                                            writeBack: WriteBack, i: nat, tally: Tally)
    requires i <= |updates|
    ensures BatchFrom(w, spreadsheetId, updates, now, writeBack, i, tally).result.Err? <==> MissingId(updates, i)
    ensures BatchFrom(w, spreadsheetId, updates, now, writeBack, i, tally).result.Err? ==>
            BatchFrom(w, spreadsheetId, updates, now, writeBack, i, tally).result.error == KeyMissing("id")
    ensures BatchFrom(w, spreadsheetId, updates, now, writeBack, i, tally).result.Ok? ==>
            Counted(tally, BatchFrom(w, spreadsheetId, updates, now, writeBack, i, tally).result.value, |updates| - i)
    decreases |updates| - i
  {
    if i < |updates| {
      match updates[i].id
      case None =>
        assert updates[i].id.None?;
      case Some(id) =>
        match updates[i].status
        case None =>
          var next := tally.(failed := tally.failed + [FailedUpdate(id, Message(KeyMissing("status")))]);
          BatchFromOutcome(w, spreadsheetId, updates, now, writeBack, i + 1, next);
          StepCounted(tally, next);
          MissingIdStep(updates, i);
        case Some(status) =>
          var run := StatusUpdateAs(w, spreadsheetId, id, status, now, writeBack);
          var next := if run.result.Ok? then tally.(results := tally.results + [run.result.value])
                      else tally.(failed := tally.failed + [FailedUpdate(id, UpdateErrorText(run.result.error))]);
          BatchFromOutcome(run.world, spreadsheetId, updates, now, writeBack, i + 1, next);
          StepCounted(tally, next);
          MissingIdStep(updates, i);
    }
  }

  /** `final` keeps the results of `tally` and has `f` right after its failures. */
  predicate FailureAt(tally: Tally, final: Tally, f: FailedUpdate) {
    tally.results <= final.results && |tally.failed| < |final.failed|
    && final.failed[..|tally.failed| + 1] == tally.failed + [f]
  }

  /** `final` keeps the failures of `tally` and has `m` right after its results. */
  predicate ResultAt(tally: Tally, final: Tally, m: string) {
    tally.failed <= final.failed && |tally.results| < |final.results|
    && final.results[..|tally.results| + 1] == tally.results + [m]
  }

  /** The entry an update with id `id` whose call ended in `r` leaves in `final`: the
      confirmation after the results of `tally`, or the failure with the text of the
      re-raised exception after its failures. */
  predicate OutcomeAt(tally: Tally, final: Tally, id: string, r: Result<string, Exception>) {
    if r.Ok? then ResultAt(tally, final, r.value) else FailureAt(tally, final, FailedUpdate(id, UpdateErrorText(r.error)))
  }

  /** The entry of update `i` in a completed batch is its own: a missing 'status' key is
      recorded as that KeyError's failure, otherwise the outcome of `update_status` on
      its id and status, and it comes right after the entries of the updates before it,
      so later updates' entries follow it. */
  lemma BatchEntry(w: World, spreadsheetId: string, updates: seq<Update>, now: string, writeBack: WriteBack,
                   i: nat, tally: Tally)
    requires i < |updates| && updates[i].id.Some?
    ensures BatchFrom(w, spreadsheetId, updates, now, writeBack, i, tally).result.Ok? && updates[i].status.None? ==>
              FailureAt(tally, BatchFrom(w, spreadsheetId, updates, now, writeBack, i, tally).result.value,
                        FailedUpdate(updates[i].id.value, Message(KeyMissing("status"))))
    ensures BatchFrom(w, spreadsheetId, updates, now, writeBack, i, tally).result.Ok? && updates[i].status.Some? ==>
              OutcomeAt(tally, BatchFrom(w, spreadsheetId, updates, now, writeBack, i, tally).result.value, updates[i].id.value,
                        StatusUpdateAs(w, spreadsheetId, updates[i].id.value, updates[i].status.value, now, writeBack).result)
  {
    if updates[i].status.None? {
      EntryMissingStatus(w, spreadsheetId, updates, now, writeBack, i, tally);
    } else {
      EntryAfterCall(w, spreadsheetId, updates, now, writeBack, i, tally,
                     StatusUpdateAs(w, spreadsheetId, updates[i].id.value, updates[i].status.value, now, writeBack));
    }
  }

  /** `BatchEntry` for an update without a 'status' key. */
  lemma EntryMissingStatus(w: World, spreadsheetId: string, updates: seq<Update>, now: string, writeBack: WriteBack,
                           i: nat, tally: Tally)
    requires i < |updates| && updates[i].id.Some? && updates[i].status.None?
    ensures BatchFrom(w, spreadsheetId, updates, now, writeBack, i, tally).result.Ok? ==>
              FailureAt(tally, BatchFrom(w, spreadsheetId, updates, now, writeBack, i, tally).result.value,
                        FailedUpdate(updates[i].id.value, Message(KeyMissing("status"))))
  {
    var f := FailedUpdate(updates[i].id.value, Message(KeyMissing("status")));
    var next := tally.(failed := tally.failed + [f]);
    var after := BatchFrom(w, spreadsheetId, updates, now, writeBack, i + 1, next);
    if after.result.Ok? {
      BatchFromOutcome(w, spreadsheetId, updates, now, writeBack, i + 1, next);
      FailureKept(tally, f, after.result.value);
    }
  }

  /** `BatchEntry` for an update with a 'status' key, whose call ends in `run`. */
  lemma EntryAfterCall(w: World, spreadsheetId: string, updates: seq<Update>, now: string, writeBack: WriteBack,
                       i: nat, tally: Tally, run: Run<string>)
    requires i < |updates| && updates[i].id.Some? && updates[i].status.Some?
    requires run == StatusUpdateAs(w, spreadsheetId, updates[i].id.value, updates[i].status.value, now, writeBack)
    ensures BatchFrom(w, spreadsheetId, updates, now, writeBack, i, tally).result.Ok? ==>
              OutcomeAt(tally, BatchFrom(w, spreadsheetId, updates, now, writeBack, i, tally).result.value,
                        updates[i].id.value, run.result)
  {
    var id := updates[i].id.value;
    var next := if run.result.Ok? then tally.(results := tally.results + [run.result.value])
                else tally.(failed := tally.failed + [FailedUpdate(id, UpdateErrorText(run.result.error))]);
    var after := BatchFrom(run.world, spreadsheetId, updates, now, writeBack, i + 1, next);
    if after.result.Ok? {
      BatchFromOutcome(run.world, spreadsheetId, updates, now, writeBack, i + 1, next);
      if run.result.Ok? {
        ResultKept(tally, run.result.value, after.result.value);
      } else {
        FailureKept(tally, FailedUpdate(id, UpdateErrorText(run.result.error)), after.result.value);
      }
    }
  }

  /** A tally that extends `tally` with `f` and is kept by `final` puts `f` where `FailureAt` says. */
  lemma FailureKept(tally: Tally, f: FailedUpdate, final: Tally)
    requires tally.results <= final.results && tally.failed + [f] <= final.failed
    ensures FailureAt(tally, final, f)
  {
  }

  /** A tally that extends `tally` with `m` and is kept by `final` puts `m` where `ResultAt` says. */
  lemma ResultKept(tally: Tally, m: string, final: Tally)
    requires tally.failed <= final.failed && tally.results + [m] <= final.results
    ensures ResultAt(tally, final, m)
  {
  }

  /** `final` extends both lists of `tally` and holds `n` more entries in all. */
  predicate Counted(tally: Tally, final: Tally, n: nat) {
    tally.results <= final.results && tally.failed <= final.failed
    && |final.results| + |final.failed| == |tally.results| + |tally.failed| + n
  }

  /** One entry added to a tally, then `n` more, is `n + 1` more. */
  lemma StepCounted(tally: Tally, next: Tally)
    requires (tally.results <= next.results && tally.failed == next.failed && |next.results| == |tally.results| + 1)
             || (tally.results == next.results && tally.failed <= next.failed && |next.failed| == |tally.failed| + 1)
    ensures forall final: Tally, n: nat {:trigger Counted(next, final, n)} ::
              Counted(next, final, n) ==> Counted(tally, final, n + 1)
  {
    forall final: Tally, n: nat | Counted(next, final, n)
      ensures Counted(tally, final, n + 1)
    {
      assert tally.results <= final.results && tally.failed <= final.failed;
    }
  }

  /** An update with an id does not change whether a later one lacks one. */
  lemma MissingIdStep(updates: seq<Update>, i: nat)
    requires i < |updates| && updates[i].id.Some?
    ensures MissingId(updates, i) <==> MissingId(updates, i + 1)
  {
    if MissingId(updates, i) {
      var j :| i <= j < |updates| && updates[j].id.None?;
      assert j != i;
    }
  }

  /** The whole batch raises exactly when some update has no 'id' key, with the text
      the outer handler gives that KeyError; otherwise its report counts every update
      once, as a success or a failure. */
  lemma BatchOutcome(w: World, spreadsheetId: string, updates: seq<Update>, now: string, writeBack: WriteBack)
    ensures BatchFrom(w, spreadsheetId, updates, now, writeBack, 0, Tally([], [])).result.Err? <==> MissingId(updates, 0)
    ensures BatchUpdateAs(w, spreadsheetId, updates, now, writeBack).result.Err? <==> MissingId(updates, 0)
    ensures BatchUpdateAs(w, spreadsheetId, updates, now, writeBack).result.Err? ==>
            BatchUpdateAs(w, spreadsheetId, updates, now, writeBack).result.error == KeyMissing("id")
            && BatchErrorText(BatchUpdateAs(w, spreadsheetId, updates, now, writeBack).result.error)
               == "Error in batch update: 'id'"
    ensures BatchFrom(w, spreadsheetId, updates, now, writeBack, 0, Tally([], [])).result.Ok? ==>
            var t := BatchFrom(w, spreadsheetId, updates, now, writeBack, 0, Tally([], [])).result.value;
            |t.results| + |t.failed| == |updates|
  {
    BatchFromOutcome(w, spreadsheetId, updates, now, writeBack, 0, Tally([], []));
    MissingIdText();
  }

  /** The text the outer handler gives the KeyError of a missing 'id' key. */
  lemma MissingIdText()
    ensures BatchErrorText(KeyMissing("id")) == "Error in batch update: 'id'"
  {
  }

  /** An update rejected before any effect changes nothing. */
  lemma RejectedUpdateUnchanged(w: World, spreadsheetId: string, id: string, status: string, now: string,
                                writeBack: WriteBack)
    requires status !in ValidStatuses
    ensures StatusUpdateAs(w, spreadsheetId, id, status, now, writeBack) == Run(w, Err(InvalidStatus(status)))
  {
  }

  /** A batch whose every update from position `i` on is rejected leaves both services
      as they were and adds no result. */
  lemma {:induction false} RejectedBatchUnchanged(w: World, spreadsheetId: string, updates: seq<Update>, now: string,
                                                  writeBack: WriteBack, i: nat, tally: Tally)
    requires i <= |updates| && forall j :: i <= j < |updates| ==> Rejected(updates[j])
    ensures BatchFrom(w, spreadsheetId, updates, now, writeBack, i, tally).world == w
    ensures BatchFrom(w, spreadsheetId, updates, now, writeBack, i, tally).result.Ok?
    ensures BatchFrom(w, spreadsheetId, updates, now, writeBack, i, tally).result.value.results == tally.results
    decreases |updates| - i
  {
    if i < |updates| {
      assert Rejected(updates[i]);
      var id := updates[i].id.value;
      match updates[i].status
      case None =>
        RejectedBatchUnchanged(w, spreadsheetId, updates, now, writeBack, i + 1,
                               tally.(failed := tally.failed + [FailedUpdate(id, Message(KeyMissing("status")))]));
      case Some(status) =>
        RejectedUpdateUnchanged(w, spreadsheetId, id, status, now, writeBack);
        RejectedBatchUnchanged(w, spreadsheetId, updates, now, writeBack, i + 1,
                               tally.(failed := tally.failed + [FailedUpdate(id, UpdateErrorText(InvalidStatus(status)))]));
    }
  }

  /** A batch of rejected updates changes nothing and reports no success. */
  lemma RejectedBatchReport(w: World, spreadsheetId: string, updates: seq<Update>, now: string, writeBack: WriteBack)
    requires forall j :: 0 <= j < |updates| ==> Rejected(updates[j])
    ensures BatchUpdateAs(w, spreadsheetId, updates, now, writeBack).world == w
    ensures BatchUpdateAs(w, spreadsheetId, updates, now, writeBack).result.Ok?
    ensures ReportHead(0) <= BatchUpdateAs(w, spreadsheetId, updates, now, writeBack).result.value
  {
    RejectedBatchUnchanged(w, spreadsheetId, updates, now, writeBack, 0, Tally([], []));
    var t := BatchFrom(w, spreadsheetId, updates, now, writeBack, 0, Tally([], [])).result.value;
    ReportShape(|t.results|, t.failed);
  }

  /** The failure lines of two lists one after the other are those of the lists joined. */
  lemma {:induction false} FailureLinesAppend(a: seq<FailedUpdate>, b: seq<FailedUpdate>)
    ensures FailureLines(a + b) == FailureLines(a) + FailureLines(b)
    decreases |b|
  {
    if b != [] {
      var b' := b[..|b| - 1];
      assert (a + b)[..|a + b| - 1] == a + b';
      FailureLinesAppend(a, b');
    } else {
      assert a + b == a;
    }
  }

  /** The report opens with the success count and is nothing more exactly when no update
      failed. */
  lemma ReportShape(successCount: nat, failures: seq<FailedUpdate>)
    ensures ReportHead(successCount) <= ReportText(successCount, failures)
    ensures ReportText(successCount, failures) == ReportHead(successCount) <==> failures == []
  {
    if failures != [] {
      var tail := FailureHead(|failures|) + FailureLines(failures);
      assert |tail| > 0 by {
        assert |FailureHead(|failures|)| > 0;
      }
    }
  }
}
