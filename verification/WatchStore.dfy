/**
 RoundWatchStore: the table as mutable state, one method per statement or transaction. Each method is
 proved to be exactly the statement of module Watches, so the laws of WatchLaws hold of this class.
 */
module WatchStore {
  import opened Common
  import opened Watches
  import opened WatchLaws
  import opened Purchases

  /** What recordSettlementCandidate and activateWatch report for a row that is not waiting for settlement. */
  predicate SettledBy(r: Row, ev: Evidence) {
    (r.state == Active || r.state == Matched) && r.service.Some? && r.service.value.tx == ev.tx
  }

  /** The columns a claim compares: state, evidence, the plan's own snapshot, and a retry that is due. */
  predicate PlanHolds(r: Row, plan: WorkClaim, at: int) {
    match plan
    case Polling(scanAfter, closing, failureCount) =>
      && r.state.Active? && r.evidenceVersion == 1 && r.expiresAt.Some?
      && r.scanAfter == Some(scanAfter) && r.closing == closing && r.failureCount == failureCount
      && (r.retryAt.Some? ==> r.retryAt.value <= at)
    case Reconciliation(tx, attempts) =>
      && (r.state.SettlementPending? || r.state.SettlementUnknown?) && !r.terminal
      && r.expectedTx == Some(tx) && r.attempts == attempts
      && (r.nextAttemptAt.Some? ==> r.nextAttemptAt.value <= at)
  }

  /** A failure the store records: a short lowercase code, an HTTP status, and a later retry unless it is permanent. */
  predicate Recordable(f: Failure, retryAt: Option<int>) {
    && 0 < |f.code| <= 64 && (forall i | 0 <= i < |f.code| :: 'a' <= f.code[i] <= 'z' || '0' <= f.code[i] <= '9' || f.code[i] == '_')
    && (f.status.Some? ==> 100 <= f.status.value < 600)
    && (f.permanent || (retryAt.Some? && retryAt.value > f.at))
  }

  lemma RecordableExactly(f: Failure, retryAt: Option<int>)
    ensures ValidFailure(f, retryAt) <==> Recordable(f, retryAt)
  {
    assert forall i | 0 <= i < |f.code| :: f.code[i] in f.code;
  }

  lemma LegacyRowUnique(rows: Rows, id: Id, key: string)
    requires WellFormedTable(rows) && id in rows && LegacyRow(rows[id], key)
    ensures FindRow(rows, r => LegacyRow(r, key)) == Some(rows[id])
  {
    forall other | other in rows && other != id ensures !LegacyRow(rows[other], key) {
      assert !Clash(rows[id], rows[other]);
    }
    SameRowFound(rows, id, r => LegacyRow(r, key));
  }

  lemma NoRowFound(rows: Rows, which: Row -> bool)
    requires forall id | id in rows :: !which(rows[id])
    ensures FindRow(rows, which) == None
  {
  }

  /** Writing back an unchanged row changes nothing. */
  lemma UnchangedRow(rows: Rows, id: Id)
    requires WellFormedTable(rows) && id in rows
    ensures Put(rows, id, rows[id]) == rows && Admits(rows, id, rows[id])
  {
    assert rows[id := rows[id]] == rows;
  }

  class RoundWatchStore {
    const cfg: Config
    var rows: Rows

    ghost predicate Valid()
      reads this
    {
      WellFormedTable(rows)
    }

    constructor (cfg: Config)
      ensures Valid() && this.cfg == cfg && rows == map[]
    {
      this.cfg := cfg;
      rows := map[];
    }

    function GetWatch(id: Id): Option<Row>
      reads this
    {
      if id in rows then Some(rows[id]) else None
    }

    method FindIdempotencyRow(key: string, payer: Option<string>) returns (found: Option<Row>)
      requires Valid()
      ensures found == Watches.FindIdempotencyRow(rows, key, payer)
    {
      if Truthy(payer) {
        if id :| id in rows && PayerRow(rows[id], payer.value, key) {
          PayerRowUnique(rows, id, payer.value, key);
          return Some(rows[id]);
        }
        NoRowFound(rows, r => PayerRow(r, payer.value, key));
      }
      if id :| id in rows && LegacyRow(rows[id], key) {
        LegacyRowUnique(rows, id, key);
        return Some(rows[id]);
      }
      NoRowFound(rows, r => LegacyRow(r, key));
      return None;
    }

    function CountOpenObligations(payer: Option<string>): (count: nat)
      reads this
      ensures count <= |rows|
    {
      OpenAmongRows(rows, payer);
      if Truthy(payer) then |OpenIdsOf(rows, payer.value)| else |OpenIds(rows)|
    }

    method PrepareWatch(id: Id, spec: Spec, intent: Option<Intent>, at: int) returns (outcome: Prepared)
      requires Valid()
      modifies this`rows
      ensures Valid() && outcome == PrepareOutcome(cfg, old(rows), id, spec, intent, at)
      ensures rows == Apply(cfg, old(rows), Prepare(id, spec, intent, at))
      ensures outcome.Created? ==> JustSold(cfg, outcome.row, id, spec, intent, at) && rows == old(rows)[id := outcome.row] && id !in old(rows)
      ensures !outcome.Created? ==> rows == old(rows)
    {
      hide WellFormedTable, Admits, TableEvolves, JustSold;
      OutcomeExactly(cfg, rows, id, spec, intent, at);
      ApplyKeeps(cfg, rows, Prepare(id, spec, intent, at));
      var payer := if intent.Some? then intent.value.payer else None;
      var existing := FindIdempotencyRow(spec.key, payer);
      if existing.Some? {
        if Truthy(payer) && existing.value.expectedPayer.None? {
          return LegacyReserved;
        }
        if !SpecMatches(existing.value, spec) {
          return SpecConflict(existing.value);
        }
        return Replayed(existing.value);
      }
      if CountOpenObligations(None) >= cfg.maxOpen {
        return GlobalCapacity;
      }
      if Truthy(payer) && CountOpenObligations(payer) >= cfg.maxOpenPerPayer {
        return PayerCapacity;
      }
      var row := NewRow(cfg, id, spec, intent, at);
      if id in rows || !Admits(rows, id, row) {
        return UniqueViolation;
      }
      rows := rows[id := row];
      return Created(row);
    }

    method RecordSettlementCandidate(id: Id, ev: Evidence) returns (result: Result<Row>)
      requires Valid()
      modifies this`rows
      ensures Valid() && rows == Apply(cfg, old(rows), RecordCandidate(id, ev))
      ensures result.Ok? ==> id in rows && result.value == rows[id]
      ensures result.Ok? <==> && id in old(rows) && EvidenceFits(old(rows)[id], ev)
                              && (SettledBy(old(rows)[id], ev)
                                  || (Unsettled(old(rows)[id]) && Admits(old(rows), id, UpdateRow(RecordCandidate(id, ev), old(rows)[id]))))
      ensures rows != old(rows) ==>
                && id in old(rows) && Unsettled(old(rows)[id]) && !old(rows)[id].terminal
                && var r := old(rows)[id];
                   rows == old(rows)[id := r.(expectedTx := Some(r.expectedTx.GetOr(ev.tx)),
                                              expectedNetwork := Some(r.expectedNetwork.GetOr(ev.network)),
                                              expectedPayer := if r.expectedPayer.Some? then r.expectedPayer else ev.payer)]
      ensures result.Ok? && Unsettled(result.value) && !result.value.terminal ==>
                && result.value.expectedTx.Some? && result.value.expectedNetwork.Some?
                && (ev.payer.Some? ==> result.value.expectedPayer.Some?)
    {
      hide WellFormedTable, Admits, TableEvolves;
      ApplyKeeps(cfg, rows, RecordCandidate(id, ev));
      if id !in rows {
        return Thrown;
      }
      var existing := rows[id];
      UnchangedRow(rows, id);
      if !EvidenceFits(existing, ev) {
        return Thrown;
      }
      if existing.state == Active || existing.state == Matched {
        if existing.service.Some? && existing.service.value.tx == ev.tx {
          return Ok(existing);
        }
        return Thrown;
      }
      if existing.state != SettlementPending && existing.state != SettlementUnknown {
        return Thrown;
      }
      if !existing.terminal {
        var updated := existing.(expectedTx := Coalesce(existing.expectedTx, Some(ev.tx)),
                                 expectedNetwork := Coalesce(existing.expectedNetwork, Some(ev.network)),
                                 expectedPayer := Coalesce(existing.expectedPayer, ev.payer));
        if !Admits(rows, id, updated) {
          return Thrown;
        }
        rows := rows[id := updated];
      }
      return Ok(rows[id]);
    }

    method ActivateWatch(id: Id, ev: Evidence, baseline: Option<nat>, at: int) returns (result: Result<Row>)
      requires Valid()
      modifies this`rows
      ensures Valid() && rows == Apply(cfg, old(rows), Activate(id, ev, baseline, at))
      ensures result.Ok? ==> id in rows && result.value == rows[id] && rows[id].service.Some? && rows[id].service.value.tx == ev.tx
      ensures result.Ok? <==> && id in old(rows) && EvidenceFits(old(rows)[id], ev)
                              && (SettledBy(old(rows)[id], ev)
                                  || (&& Unsettled(old(rows)[id]) && !old(rows)[id].terminal
                                      && Admits(old(rows), id, UpdateRow(Activate(id, ev, baseline, at), old(rows)[id]))))
      ensures result.Ok? && Unsettled(old(rows)[id]) ==>
                rows == old(rows)[id := old(rows)[id].(state := Active, service := Some(ev), activationRound := baseline,
                                                       activatedAt := Some(at), scanAfter := baseline)]
      ensures !(result.Ok? && Unsettled(old(rows)[id])) ==> rows == old(rows)
    {
      hide WellFormedTable, Admits, TableEvolves;
      ApplyKeeps(cfg, rows, Activate(id, ev, baseline, at));
      if id !in rows {
        return Thrown;
      }
      var existing := rows[id];
      UnchangedRow(rows, id);
      if !EvidenceFits(existing, ev) {
        return Thrown;
      }
      if existing.state == Active || existing.state == Matched {
        if existing.service.Some? && existing.service.value.tx == ev.tx {
          return Ok(existing);
        }
        return Thrown;
      }
      if existing.state != SettlementPending && existing.state != SettlementUnknown {
        return Thrown;
      }
      if existing.terminal {
        return Thrown;
      }
      var updated := existing.(state := Active, service := Some(ev), activationRound := baseline,
                               activatedAt := Some(at), scanAfter := baseline);
      if !Admits(rows, id, updated) {
        return Thrown;
      }
      rows := rows[id := updated];
      return Ok(updated);
    }

    /** The charge's linearization point: freshness, due time and budget are re-checked in the statement. */
    method ClaimWorkUnit(id: Id, plan: WorkClaim, at: int) returns (outcome: ClaimOutcome)
      requires Valid()
      modifies this`rows
      ensures Valid() && rows == Apply(cfg, old(rows), Claim(id, plan, at))
      ensures outcome == if id in old(rows) then OutcomeOf(old(rows)[id], plan, at) else Inactive
      ensures outcome.Claimed? ==> rows == old(rows)[id := old(rows)[id].(used := old(rows)[id].used + 1)]
      ensures outcome.Inactive? ==> rows == old(rows)
      ensures outcome.Exhausted? ==>
                rows == old(rows)[id := old(rows)[id].(state := Indeterminate, reason := Some(WorkBudgetExhausted), terminal := true)]
      ensures !outcome.Inactive? <==> id in old(rows) && old(rows)[id].budget.Some? && PlanHolds(old(rows)[id], plan, at)
      ensures outcome.Claimed? ==> old(rows)[id].used < old(rows)[id].budget.value
      ensures outcome.Exhausted? ==> old(rows)[id].used >= old(rows)[id].budget.value
    {
      hide WellFormedTable, Apply;
      UpdateAdmitted(cfg, rows, Claim(id, plan, at));
      if id !in rows {
        return Inactive;
      }
      var existing := rows[id];
      if Eligible(existing, plan, at) && existing.budget.Some? && existing.used < existing.budget.value {
        rows := rows[id := existing.(used := existing.used + 1)];
        return Claimed;
      }
      if Eligible(existing, plan, at) && existing.budget.Some? && existing.used >= existing.budget.value {
        rows := rows[id := existing.(state := Indeterminate, reason := Some(WorkBudgetExhausted), terminal := true)];
        return Exhausted;
      }
      return Inactive;
    }

    method MarkSettlementUnknown(id: Id)
      requires Valid()
      modifies this`rows
      ensures Valid() && rows == Apply(cfg, old(rows), MarkUnknown(id))
      ensures rows == if id in old(rows) && old(rows)[id].state.SettlementPending?
                      then old(rows)[id := old(rows)[id].(state := SettlementUnknown)] else old(rows)
    {
      assert id in rows && rows[id].state == SettlementPending ==> !rows[id].terminal;
      hide WellFormedTable, Apply;
      UpdateAdmitted(cfg, rows, MarkUnknown(id));
      if id in rows && rows[id].state == SettlementPending {
        rows := rows[id := rows[id].(state := SettlementUnknown, terminal := false)];
      }
    }

    method MarkSettlementInvalid(id: Id)
      requires Valid()
      modifies this`rows
      ensures Valid() && rows == Apply(cfg, old(rows), MarkInvalid(id))
      ensures rows == if id in old(rows) && (old(rows)[id].state.SettlementPending? || old(rows)[id].state.SettlementUnknown?)
                      then old(rows)[id := old(rows)[id].(state := SettlementUnknown, terminal := true)] else old(rows)
    {
      hide WellFormedTable, Apply;
      UpdateAdmitted(cfg, rows, MarkInvalid(id));
      if id in rows && (rows[id].state == SettlementPending || rows[id].state == SettlementUnknown) {
        rows := rows[id := rows[id].(state := SettlementUnknown, terminal := true)];
      }
    }

    method RecordPollingFailure(id: Id, f: Failure, retryAt: Option<int>) returns (result: Result<Option<Row>>)
      requires Valid()
      modifies this`rows
      ensures Valid() && rows == Apply(cfg, old(rows), RecordFailure(id, f, retryAt))
      ensures result.Thrown? <==> !Recordable(f, retryAt)
      ensures result.Ok? ==> result.value == if id in old(rows) && old(rows)[id].state == Active then Some(rows[id]) else None
      ensures result.Ok? && result.value.Some? ==>
                var r := old(rows)[id];
                rows == old(rows)[id := r.(failure := Some(f), failureCount := r.failureCount + 1,
                                           retryAt := if f.permanent then None else retryAt,
                                           state := if f.permanent then Indeterminate else Active,
                                           reason := if f.permanent then Some(IndexerPermanentFailure) else r.reason)]
      ensures !(result.Ok? && result.value.Some?) ==> rows == old(rows)
    {
      RecordableExactly(f, retryAt);
      hide WellFormedTable, Apply, Recordable, ValidFailure;
      UpdateAdmitted(cfg, rows, RecordFailure(id, f, retryAt));
      if !ValidFailure(f, retryAt) {
        return Thrown;
      }
      if id !in rows || rows[id].state != Active {
        return Ok(None);
      }
      var updated := rows[id].(failure := Some(f), failureCount := rows[id].failureCount + 1,
                               retryAt := if f.permanent then None else retryAt);
      if f.permanent {
        updated := updated.(state := Indeterminate, reason := Some(IndexerPermanentFailure));
      }
      rows := rows[id := updated];
      return Ok(Some(updated));
    }

    method ClearPollingFailure(id: Id)
      requires Valid()
      modifies this`rows
      ensures Valid() && rows == Apply(cfg, old(rows), ClearFailure(id))
      ensures rows == if id in old(rows) && old(rows)[id].state.Active?
                      then old(rows)[id := old(rows)[id].(failure := None, failureCount := 0, retryAt := None)] else old(rows)
    {
      hide WellFormedTable, Apply;
      UpdateAdmitted(cfg, rows, ClearFailure(id));
      if id in rows && rows[id].state == Active {
        rows := rows[id := rows[id].(failure := None, failureCount := 0, retryAt := None)];
      }
    }

    method MarkMatched(id: Id, tx: string, round: nat) returns (watch: Option<Row>)
      requires Valid()
      modifies this`rows
      ensures Valid() && rows == Apply(cfg, old(rows), Op.MarkMatched(id, tx, round))
      ensures watch == GetWatch(id)
      ensures rows == if id in old(rows) && old(rows)[id].state.Active?
                      then old(rows)[id := old(rows)[id].(state := Matched, matched := Some(Match(tx, round)))] else old(rows)
    {
      hide WellFormedTable, Apply;
      UpdateAdmitted(cfg, rows, Op.MarkMatched(id, tx, round));
      if id in rows && rows[id].state == Active {
        rows := rows[id := rows[id].(state := Matched, matched := Some(Match(tx, round)))];
      }
      watch := GetWatch(id);
    }

    method AdvanceScanRound(id: Id, expected: nat, round: nat) returns (advanced: bool)
      requires Valid()
      modifies this`rows
      ensures Valid() && rows == Apply(cfg, old(rows), AdvanceScan(id, expected, round))
      ensures advanced <==> rows != old(rows)
      ensures advanced <==> && id in old(rows) && old(rows)[id].state.Active?
                            && old(rows)[id].scanAfter == Some(expected) && expected < round
      ensures rows == if advanced then old(rows)[id := old(rows)[id].(scanAfter := Some(round))] else old(rows)
    {
      hide WellFormedTable, Apply;
      UpdateAdmitted(cfg, rows, AdvanceScan(id, expected, round));
      if round <= expected {
        return false;
      }
      if id !in rows || rows[id].state != Active || rows[id].scanAfter != Some(expected) {
        return false;
      }
      rows := rows[id := rows[id].(scanAfter := Some(round))];
      assert rows[id] != old(rows)[id];
      return true;
    }

    method SetClosingRound(id: Id, round: nat) returns (closing: Option<nat>)
      requires Valid()
      modifies this`rows
      ensures Valid() && rows == Apply(cfg, old(rows), SetClosing(id, round))
      ensures closing == if id in rows then rows[id].closing else None
      ensures rows == if id in old(rows) && old(rows)[id].state.Active? && old(rows)[id].evidenceVersion == 1 && old(rows)[id].closing.None?
                      then old(rows)[id := old(rows)[id].(closing := Some(round))] else old(rows)
    {
      hide WellFormedTable, Apply;
      UpdateAdmitted(cfg, rows, SetClosing(id, round));
      if id in rows && rows[id].state == Active && rows[id].evidenceVersion == 1 {
        rows := rows[id := rows[id].(closing := Coalesce(rows[id].closing, Some(round)))];
      }
      closing := if id in rows then rows[id].closing else None;
    }

    method MarkExpired(id: Id, scanAfter: nat, closing: nat) returns (expired: bool)
      requires Valid()
      modifies this`rows
      ensures Valid() && rows == Apply(cfg, old(rows), Op.MarkExpired(id, scanAfter, closing))
      ensures expired <==> rows != old(rows)
      ensures expired <==> && id in old(rows) && old(rows)[id].state.Active? && old(rows)[id].evidenceVersion == 1
                           && old(rows)[id].scanAfter == Some(scanAfter) && old(rows)[id].closing == Some(closing) && closing <= scanAfter
      ensures rows == if expired then old(rows)[id := old(rows)[id].(state := Expired)] else old(rows)
    {
      hide WellFormedTable, Apply;
      UpdateAdmitted(cfg, rows, Op.MarkExpired(id, scanAfter, closing));
      if id in rows {
        var r := rows[id];
        if r.state == Active && r.evidenceVersion == 1 && r.scanAfter == Some(scanAfter) && r.closing == Some(closing) && scanAfter >= closing {
          rows := rows[id := r.(state := Expired)];
          assert rows[id] != old(rows)[id];
          return true;
        }
      }
      return false;
    }

    method RecordReconciliationFailure(id: Id, nextAttemptAt: int)
      requires Valid()
      modifies this`rows
      ensures Valid() && rows == Apply(cfg, old(rows), Defer(id, nextAttemptAt))
      ensures rows == if id in old(rows) && (old(rows)[id].state.SettlementPending? || old(rows)[id].state.SettlementUnknown?) && !old(rows)[id].terminal
                      then old(rows)[id := old(rows)[id].(attempts := old(rows)[id].attempts + 1, nextAttemptAt := Some(nextAttemptAt))] else old(rows)
    {
      hide WellFormedTable, Apply;
      UpdateAdmitted(cfg, rows, Defer(id, nextAttemptAt));
      if id in rows && (rows[id].state == SettlementPending || rows[id].state == SettlementUnknown) && !rows[id].terminal {
        rows := rows[id := rows[id].(attempts := rows[id].attempts + 1, nextAttemptAt := Some(nextAttemptAt))];
      }
    }

    /** The start-up repair: a missing budget is filled in for open obligations, and only there. */
    method RepairWorkBudgets()
      requires Valid()
      modifies this`rows
      ensures Valid() && rows == Apply(cfg, old(rows), RepairBudgets) && rows.Keys == old(rows).Keys
      ensures forall id <- rows :: rows[id] == if Open(old(rows)[id]) && old(rows)[id].budget.None?
                                               then old(rows)[id].(budget := Some(cfg.workBudget)) else old(rows)[id]
    {
      hide WellFormedTable, TableEvolves;
      ApplyKeeps(cfg, rows, RepairBudgets);
      rows := map id | id in rows :: RepairRow(cfg, rows[id]);
      assert rows == Repaired(cfg, old(rows));
    }
  }

  /** An update that leaves the unique columns alone is never rolled back. */
  lemma UpdateAdmitted(cfg: Config, rows: Rows, op: Op)
    requires WellFormedTable(rows) && !op.Prepare? && !op.RepairBudgets? && !op.RecordCandidate? && !op.Activate?
    ensures WellFormedTable(Apply(cfg, rows, op))
    ensures Apply(cfg, rows, op) == if op.id in rows then rows[op.id := UpdateRow(op, rows[op.id])] else rows
    ensures op.id in rows ==> rows[op.id := rows[op.id]] == rows
  {
    ApplyKeeps(cfg, rows, op);
    if op.id in rows { SameColumnsAdmitted(rows, op); }
  }

  lemma SameColumnsAdmitted(rows: Rows, op: Op)
    requires WellFormedTable(rows) && !op.Prepare? && !op.RepairBudgets? && !op.RecordCandidate? && !op.Activate? && op.id in rows
    ensures Admits(rows, op.id, UpdateRow(op, rows[op.id]))
  {
    hide WellFormed, TableEvolves;
    KeepsUniqueColumns(op, rows[op.id]);
    hide UpdateRow;
    forall other | other in rows && other != op.id ensures !Clash(UpdateRow(op, rows[op.id]), rows[other]) {
      assert !Clash(rows[op.id], rows[other]);
    }
  }

  lemma KeepsUniqueColumns(op: Op, r: Row)
    requires !op.RecordCandidate? && !op.Activate?
    ensures var later := UpdateRow(op, r);
            later.spec == r.spec && later.expectedPayer == r.expectedPayer && later.expectedTx == r.expectedTx && later.service == r.service
  {
  }

  lemma OpenAmongRows(rows: Rows, payer: Option<string>)
    ensures |OpenIds(rows)| <= |rows|
    ensures Truthy(payer) ==> |OpenIdsOf(rows, payer.value)| <= |OpenIds(rows)|
  {
    SmallerSet(OpenIds(rows), rows.Keys);
    if Truthy(payer) { SmallerSet(OpenIdsOf(rows, payer.value), OpenIds(rows)); }
  }
}
