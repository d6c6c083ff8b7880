/** What a recorded failure or a deferral does to later turns: nothing is charged early, and nothing is put off for longer. */
module Backoff {
  import opened Common
  import opened Watches
  import opened WatchLaws
  import opened WatchStore

  /** The statement neither records nor clears a polling failure of this watch. */
  predicate LeavesRetry(op: Op, id: Id) {
    (op.RecordFailure? || op.ClearFailure?) ==> op.id != id
  }

  /** One statement leaves a row alone, repairs it, or updates it because it addresses it. */
  lemma RowAfter(cfg: Config, rows: Rows, op: Op, id: Id)
    requires id in rows
    ensures var later := Apply(cfg, rows, op);
            && id in later
            && (|| later[id] == rows[id] || later[id] == RepairRow(cfg, rows[id])
                || (!op.Prepare? && !op.RepairBudgets? && op.id == id && later[id] == UpdateRow(op, rows[id])))
  {
    if op.Prepare? {
      hide UpdateRow, RepairRow, PrepareOutcome, Admits;
      if PrepareOutcome(cfg, rows, op.id, op.spec, op.intent, op.at).Created? { CreatedMeans(cfg, rows, op); }
    } else {
      RowNext(cfg, rows, op, id);
    }
  }

  lemma RetryUpdated(op: Op, r: Row)
    requires !op.RecordFailure? && !op.ClearFailure?
    ensures UpdateRow(op, r).retryAt == r.retryAt && UpdateRow(op, r).failureCount == r.failureCount
  {
  }

  lemma RetryKept(cfg: Config, rows: Rows, op: Op, id: Id)
    requires id in rows && LeavesRetry(op, id)
    ensures var later := Apply(cfg, rows, op);
            && id in later && later[id].retryAt == rows[id].retryAt && later[id].failureCount == rows[id].failureCount
  {
    RowAfter(cfg, rows, op, id);
    if !op.RecordFailure? && !op.ClearFailure? { RetryUpdated(op, rows[id]); }
    hide Apply, UpdateRow;
  }

  lemma {:induction false} RetryStands(cfg: Config, rows: Rows, ops: seq<Op>, id: Id)
    requires WellFormedTable(rows) && id in rows && forall op <- ops :: LeavesRetry(op, id)
    ensures var later := Run(cfg, rows, ops); id in later && later[id].retryAt == rows[id].retryAt && WellFormedTable(later)
    decreases |ops|
  {
    hide Apply, WellFormedTable, TableEvolves;
    if ops != [] {
      assert ops[0] in ops;
      ApplyKeeps(cfg, rows, ops[0]);
      RetryKept(cfg, rows, ops[0], id);
      RetryStands(cfg, Apply(cfg, rows, ops[0]), ops[1..], id);
    }
  }

  /**
   A transient failure of an active watch is counted and defers it: whatever else happens, no polling turn is
   charged before the retry time. From that time on a turn with the current snapshot is due again, while one whose
   snapshot is older than the failure never is.
   */
  lemma FailureDefers(cfg: Config, rows: Rows, id: Id, f: Failure, retryAt: int, ops: seq<Op>, plan: WorkClaim, at: int)
    requires WellFormedTable(rows) && id in rows && rows[id].state.Active? && Recordable(f, Some(retryAt)) && !f.permanent
    requires forall op <- ops :: LeavesRetry(op, id)
    requires plan.Polling?
    ensures var failed := Apply(cfg, rows, RecordFailure(id, f, Some(retryAt)));
            && id in failed && failed[id].failure == Some(f) && failed[id].failureCount == rows[id].failureCount + 1
            && failed[id].state.Active?
            && (at < retryAt ==> var later := Run(cfg, failed, ops); Apply(cfg, later, Claim(id, plan, at)) == later)
            && (at >= retryAt && PlanHolds(rows[id], plan.(failureCount := rows[id].failureCount), at) && rows[id].budget.Some? ==>
                  (OutcomeOf(failed[id], plan, at) != Inactive <==> plan.failureCount == rows[id].failureCount + 1))
  {
    var op := RecordFailure(id, f, Some(retryAt));
    var failed := Apply(cfg, rows, op);
    RecordableExactly(f, Some(retryAt));
    hide ValidFailure, Recordable, Apply, WellFormedTable;
    UpdateAdmitted(cfg, rows, op);
    assert failed[id] == UpdateRow(op, rows[id]);
    hide UpdateRow;
    RetryStands(cfg, failed, ops, id);
    if at < retryAt {
      StaleChargeChangesNothing(cfg, Run(cfg, failed, ops), id, plan, at);
    }
  }

  /** A permanent failure closes an active watch for good. */
  lemma PermanentFailureCloses(cfg: Config, rows: Rows, id: Id, f: Failure, retryAt: Option<int>, ops: seq<Op>)
    requires WellFormedTable(rows) && id in rows && rows[id].state.Active? && Recordable(f, retryAt) && f.permanent
    ensures var later := Run(cfg, Apply(cfg, rows, RecordFailure(id, f, retryAt)), ops);
            && id in later && later[id].state.Indeterminate? && later[id].reason == Some(IndexerPermanentFailure)
            && later[id].failure == Some(f) && later[id].retryAt.None?
  {
    var op := RecordFailure(id, f, retryAt);
    var failed := Apply(cfg, rows, op);
    RecordableExactly(f, retryAt);
    hide ValidFailure, Recordable, Apply, WellFormedTable;
    UpdateAdmitted(cfg, rows, op);
    assert failed[id] == UpdateRow(op, rows[id]);
    RunKeeps(cfg, failed, ops);
  }

  predicate LeavesAttempt(op: Op, id: Id) {
    op.Defer? ==> op.id != id
  }

  lemma AttemptUpdated(op: Op, r: Row)
    requires !op.Defer?
    ensures UpdateRow(op, r).nextAttemptAt == r.nextAttemptAt && UpdateRow(op, r).attempts == r.attempts
  {
  }

  lemma AttemptKept(cfg: Config, rows: Rows, op: Op, id: Id)
    requires id in rows && LeavesAttempt(op, id)
    ensures var later := Apply(cfg, rows, op);
            id in later && later[id].nextAttemptAt == rows[id].nextAttemptAt && later[id].attempts == rows[id].attempts
  {
    RowAfter(cfg, rows, op, id);
    if !op.Defer? { AttemptUpdated(op, rows[id]); }
    hide Apply, UpdateRow;
  }

  lemma {:induction false} AttemptStands(cfg: Config, rows: Rows, ops: seq<Op>, id: Id)
    requires WellFormedTable(rows) && id in rows && forall op <- ops :: LeavesAttempt(op, id)
    ensures var later := Run(cfg, rows, ops);
            && id in later && later[id].nextAttemptAt == rows[id].nextAttemptAt && later[id].attempts == rows[id].attempts
            && WellFormedTable(later)
    decreases |ops|
  {
    hide Apply, WellFormedTable, TableEvolves;
    if ops != [] {
      assert ops[0] in ops;
      ApplyKeeps(cfg, rows, ops[0]);
      AttemptKept(cfg, rows, ops[0], id);
      AttemptStands(cfg, Apply(cfg, rows, ops[0]), ops[1..], id);
    }
  }

  /**
   A deferral is counted, and no reconciliation turn is charged before the next attempt is due, nor ever by a turn
   whose snapshot is older; with the current snapshot and from that time on, one is.
   */
  lemma DeferralDefers(cfg: Config, rows: Rows, id: Id, nextAt: int, ops: seq<Op>, plan: WorkClaim, at: int)
    requires WellFormedTable(rows) && id in rows && Unsettled(rows[id]) && !rows[id].terminal
    requires forall op <- ops :: LeavesAttempt(op, id)
    requires plan.Reconciliation?
    ensures var deferred := Apply(cfg, rows, Defer(id, nextAt));
            && id in deferred && deferred[id] == rows[id].(attempts := rows[id].attempts + 1, nextAttemptAt := Some(nextAt))
            && (at < nextAt || plan.attempts != rows[id].attempts + 1 ==>
                  var later := Run(cfg, deferred, ops); Apply(cfg, later, Claim(id, plan, at)) == later)
            && (at >= nextAt && rows[id].expectedTx == Some(plan.tx) && rows[id].budget.Some? ==>
                  (OutcomeOf(deferred[id], plan, at) != Inactive <==> plan.attempts == rows[id].attempts + 1))
  {
    var op := Defer(id, nextAt);
    var deferred := Apply(cfg, rows, op);
    hide Apply, WellFormedTable;
    UpdateAdmitted(cfg, rows, op);
    assert deferred[id] == UpdateRow(op, rows[id]);
    AttemptStands(cfg, deferred, ops, id);
    if at < nextAt || plan.attempts != rows[id].attempts + 1 {
      StaleChargeChangesNothing(cfg, Run(cfg, deferred, ops), id, plan, at);
    }
  }
}
