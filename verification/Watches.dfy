/**
 The durable watch row and the SQL statements that change it.
 Every statement is one atomic conditional UPDATE (or the one INSERT transaction);
 times are milliseconds, identifiers and addresses are strings, notes are bytes.
 */
module Watches {
  import opened Common

  type Id = string

  datatype WatchState =
    | SettlementPending
    | Active
    | Matched
    | SettlementUnknown
    | Expired
    | Indeterminate

  datatype Spec = Spec(
    key: string,
    sender: string,
    receiver: string,
    asset: nat,
    amount: string,
    note: Option<seq<bv8>>)

  /** The immutable purchase terms decoded from the signed service payment. */
  datatype Terms = Terms(receiver: string, asset: nat, amount: string, firstValid: nat, lastValid: nat)

  datatype Intent = Intent(tx: string, network: string, payer: Option<string>, terms: Terms)

  datatype Evidence = Evidence(tx: string, network: string, payer: Option<string>)

  datatype Match = Match(tx: string, round: nat)

  datatype Reason = WorkBudgetExhausted | IndexerPermanentFailure

  datatype Failure = Failure(code: string, status: Option<nat>, permanent: bool, at: int)

  datatype Row = Row(
    id: Id,
    spec: Spec,
    state: WatchState,
    expectedTx: Option<string>,
    expectedNetwork: Option<string>,
    expectedPayer: Option<string>,
    terms: Option<Terms>,
    service: Option<Evidence>,
    activationRound: Option<nat>,
    activatedAt: Option<int>,
    scanAfter: Option<nat>,
    createdAt: int,
    expiresAt: Option<int>,
    matched: Option<Match>,
    closing: Option<nat>,
    terminal: bool,
    evidenceVersion: nat,
    attempts: nat,
    nextAttemptAt: Option<int>,
    budget: Option<nat>,
    used: nat,
    reason: Option<Reason>,
    failure: Option<Failure>,
    failureCount: nat,
    retryAt: Option<int>)

  type Rows = map<Id, Row>

  datatype Config = Config(maxOpen: nat, maxOpenPerPayer: nat, workBudget: nat, ttl: nat)

  /** What a worker saw when it chose the watch; a charge requires that it still holds. */
  datatype WorkClaim =
    | Polling(scanAfter: nat, closing: Option<nat>, failureCount: nat)
    | Reconciliation(tx: string, attempts: nat)

  datatype Op =
    | Prepare(id: Id, spec: Spec, intent: Option<Intent>, at: int)
    | RecordCandidate(id: Id, ev: Evidence)
    | Activate(id: Id, ev: Evidence, baseline: Option<nat>, at: int)
    | MarkUnknown(id: Id)
    | MarkInvalid(id: Id)
    | Claim(id: Id, plan: WorkClaim, at: int)
    | RecordFailure(id: Id, failure: Failure, retryAt: Option<int>)
    | ClearFailure(id: Id)
    | MarkMatched(id: Id, tx: string, round: nat)
    | AdvanceScan(id: Id, expected: nat, round: nat)
    | SetClosing(id: Id, round: nat)
    | MarkExpired(id: Id, scanAfter: nat, closing: nat)
    | Defer(id: Id, nextAttemptAt: int)
    | RepairBudgets

  datatype ClaimOutcome = Claimed | Exhausted | Inactive

  datatype Prepared =
    | Created(row: Row)
    | Replayed(row: Row)
    | LegacyReserved
    | SpecConflict(row: Row)
    | GlobalCapacity
    | PayerCapacity
    | UniqueViolation

  /** Awaiting a settlement verdict: the state pair most settlement statements guard on. */
  predicate Unsettled(r: Row) {
    r.state == SettlementPending || r.state == SettlementUnknown
  }

  /** The open-obligation predicate shared by the partial index, repair and capacity counts. */
  predicate Open(r: Row) {
    r.state == SettlementPending || r.state == Active || (r.state == SettlementUnknown && !r.terminal)
  }

  // ---- Row-level UPDATE statements ---------------------------------------------------------

  /** A persisted value that is present, non-empty and different from the evidence. */
  predicate Contradicts(persisted: Option<string>, value: string) {
    Truthy(persisted) && persisted.value != value
  }

  /** assertSettlementEvidenceMatches throws exactly when this fails. */
  predicate EvidenceFits(r: Row, ev: Evidence) {
    && !Contradicts(r.expectedTx, ev.tx)
    && !Contradicts(r.expectedNetwork, ev.network)
    && !(Truthy(ev.payer) && Contradicts(r.expectedPayer, ev.payer.value))
  }

  function Coalesce<T>(a: Option<T>, b: Option<T>): Option<T> {
    if a.Some? then a else b
  }

  predicate Due(at: Option<int>, now: int) {
    at.None? || at.value <= now
  }

  /** recordPollingFailure refuses an unstable code, a bad status, or a deferral without a future retry. */
  predicate ValidFailure(f: Failure, retryAt: Option<int>) {
    && 1 <= |f.code| <= 64
    && (forall c <- f.code :: 'a' <= c <= 'z' || '0' <= c <= '9' || c == '_')
    && (f.status.Some? ==> 100 <= f.status.value <= 599)
    && (!f.permanent ==> retryAt.Some? && f.at < retryAt.value)
  }

  predicate Eligible(r: Row, plan: WorkClaim, now: int) {
    match plan
    case Polling(scan, closing, failures) =>
      && r.state == Active && r.evidenceVersion == 1
      && r.scanAfter == Some(scan) && r.expiresAt.Some?
      && r.closing == closing && r.failureCount == failures
      && Due(r.retryAt, now)
    case Reconciliation(tx, attempts) =>
      && Unsettled(r) && !r.terminal
      && r.expectedTx == Some(tx) && r.attempts == attempts
      && Due(r.nextAttemptAt, now)
  }

  function OutcomeOf(r: Row, plan: WorkClaim, now: int): ClaimOutcome {
    if !Eligible(r, plan, now) || r.budget.None? then Inactive
    else if r.used < r.budget.value then Claimed
    else Exhausted
  }

  /** The effect of one UPDATE on the row it addresses. */
  function UpdateRow(op: Op, r: Row): Row {
    match op
    case Prepare(_, _, _, _) => r
    case RecordCandidate(_, ev) =>
      if EvidenceFits(r, ev) && Unsettled(r) && !r.terminal
      then r.(expectedTx := Coalesce(r.expectedTx, Some(ev.tx)),
              expectedNetwork := Coalesce(r.expectedNetwork, Some(ev.network)),
              expectedPayer := Coalesce(r.expectedPayer, ev.payer))
      else r
    case Activate(_, ev, baseline, at) =>
      if EvidenceFits(r, ev) && Unsettled(r) && !r.terminal
      then r.(state := Active, service := Some(ev), activationRound := baseline,
              activatedAt := Some(at), scanAfter := baseline)
      else r
    case MarkUnknown(_) =>
      if r.state == SettlementPending then r.(state := SettlementUnknown, terminal := false) else r
    case MarkInvalid(_) =>
      if Unsettled(r) then r.(state := SettlementUnknown, terminal := true) else r
    case Claim(_, plan, at) =>
      (match OutcomeOf(r, plan, at)
       case Claimed => r.(used := r.used + 1)
       case Exhausted => r.(state := Indeterminate, reason := Some(WorkBudgetExhausted), terminal := true)
       case Inactive => r)
    case RecordFailure(_, f, retryAt) =>
      if r.state == Active && ValidFailure(f, retryAt)
      then r.(failure := Some(f), failureCount := r.failureCount + 1,
              retryAt := if f.permanent then None else retryAt,
              state := if f.permanent then Indeterminate else r.state,
              reason := if f.permanent then Some(IndexerPermanentFailure) else r.reason)
      else r
    case ClearFailure(_) =>
      if r.state == Active then r.(failure := None, failureCount := 0, retryAt := None) else r
    case MarkMatched(_, tx, round) =>
      if r.state == Active then r.(state := Matched, matched := Some(Match(tx, round))) else r
    case AdvanceScan(_, expected, round) =>
      if expected < round && r.state == Active && r.scanAfter == Some(expected)
      then r.(scanAfter := Some(round)) else r
    case SetClosing(_, round) =>
      if r.state == Active && r.evidenceVersion == 1
      then r.(closing := Coalesce(r.closing, Some(round))) else r
    case MarkExpired(_, scan, closing) =>
      if && r.state == Active && r.evidenceVersion == 1
         && r.scanAfter == Some(scan) && r.closing == Some(closing) && closing <= scan
      then r.(state := Expired) else r
    case Defer(_, at) =>
      if Unsettled(r) && !r.terminal
      then r.(attempts := r.attempts + 1, nextAttemptAt := Some(at)) else r
    case RepairBudgets => r
  }

  // ---- Unique indexes ----------------------------------------------------------------------

  /** The idempotency scope COALESCE(expected_service_payer, ''), idempotency_key. */
  function Scope(r: Row): (string, string) {
    (r.expectedPayer.GetOr(""), r.spec.key)
  }

  predicate Clash(r: Row, s: Row) {
    || Scope(r) == Scope(s)
    || (r.expectedTx.Some? && r.expectedTx == s.expectedTx)
    || (r.service.Some? && s.service.Some? && r.service.value.tx == s.service.value.tx)
  }

  predicate Admits(rows: Rows, id: Id, r: Row) {
    forall other | other in rows && other != id :: !Clash(r, rows[other])
  }

  ghost predicate Unique(rows: Rows) {
    forall i, j | i in rows && j in rows && i != j :: !Clash(rows[i], rows[j])
  }

  // ---- Whole-table operations --------------------------------------------------------------

  function OpenIds(rows: Rows): set<Id> {
    set id | id in rows && Open(rows[id])
  }

  /** COALESCE(expected_service_payer, service_payer). */
  function PayerOf(r: Row): Option<string> {
    Coalesce(r.expectedPayer, if r.service.Some? then r.service.value.payer else None)
  }

  function OpenIdsOf(rows: Rows, payer: string): set<Id> {
    set id | id in rows && Open(rows[id]) && PayerOf(rows[id]) == Some(payer)
  }

  predicate PayerRow(r: Row, payer: string, key: string) {
    r.expectedPayer == Some(payer) && r.spec.key == key
  }

  predicate LegacyRow(r: Row, key: string) {
    r.expectedPayer.None? && r.spec.key == key
  }

  ghost function FindRow(rows: Rows, which: Row -> bool): (found: Option<Row>)
    ensures found.Some? ==> which(found.value) && exists id :: id in rows && rows[id] == found.value
    ensures found.None? ==> forall id | id in rows :: !which(rows[id])
  {
    if exists id :: id in rows && which(rows[id])
    then var id :| id in rows && which(rows[id]); Some(rows[id])
    else None
  }

  /** The payer's own row first, then a row that has no payer at all. */
  ghost function FindIdempotencyRow(rows: Rows, key: string, payer: Option<string>): Option<Row> {
    var exact := if Truthy(payer) then FindRow(rows, r => PayerRow(r, payer.value, key)) else None;
    if exact.Some? then exact else FindRow(rows, r => LegacyRow(r, key))
  }

  predicate SpecMatches(r: Row, spec: Spec) {
    r.spec.(key := spec.key) == spec
  }

  function NewRow(cfg: Config, id: Id, spec: Spec, intent: Option<Intent>, at: int): Row {
    Row(id, spec, SettlementPending,
        if intent.Some? then Some(intent.value.tx) else None,
        if intent.Some? then Some(intent.value.network) else None,
        if intent.Some? then intent.value.payer else None,
        if intent.Some? then Some(intent.value.terms) else None,
        None, None, None, None, at, Some(at + cfg.ttl), None, None, false,
        if intent.Some? then 1 else 0,
        0, None, Some(cfg.workBudget), 0, None, None, 0, None)
  }

  function PayerOfIntent(intent: Option<Intent>): Option<string> {
    if intent.Some? then intent.value.payer else None
  }

  ghost function PrepareOutcome(cfg: Config, rows: Rows, id: Id, spec: Spec, intent: Option<Intent>, at: int): Prepared {
    var payer := PayerOfIntent(intent);
    var existing := FindIdempotencyRow(rows, spec.key, payer);
    if existing.Some? then
      if Truthy(payer) && existing.value.expectedPayer.None? then LegacyReserved
      else if !SpecMatches(existing.value, spec) then SpecConflict(existing.value)
      else Replayed(existing.value)
    else if |OpenIds(rows)| >= cfg.maxOpen then GlobalCapacity
    else if Truthy(payer) && |OpenIdsOf(rows, payer.value)| >= cfg.maxOpenPerPayer then PayerCapacity
    else
      var row := NewRow(cfg, id, spec, intent, at);
      if id in rows || !Admits(rows, id, row) then UniqueViolation else Created(row)
  }

  /** An UPDATE of an existing row; a violated unique index rolls it back. */
  function Put(rows: Rows, id: Id, r: Row): Rows {
    if Admits(rows, id, r) then rows[id := r] else rows
  }

  ghost function ApplyPrepare(rows: Rows, p: Prepared): Rows {
    if p.Created? then rows[p.row.id := p.row] else rows
  }

  /** The table after one statement. */
  ghost function Apply(cfg: Config, rows: Rows, op: Op): Rows {
    if op.Prepare? then ApplyPrepare(rows, PrepareOutcome(cfg, rows, op.id, op.spec, op.intent, op.at))
    else if op.RepairBudgets? then Repaired(cfg, rows)
    else if op.id in rows then Put(rows, op.id, UpdateRow(op, rows[op.id]))
    else rows
  }

  function RepairRow(cfg: Config, r: Row): Row {
    if Open(r) && r.budget.None? then r.(budget := Some(cfg.workBudget)) else r
  }

  function Repaired(cfg: Config, rows: Rows): Rows {
    map id | id in rows :: RepairRow(cfg, rows[id])
  }

  ghost function Run(cfg: Config, rows: Rows, ops: seq<Op>): Rows
    decreases |ops|
  {
    if ops == [] then rows else Run(cfg, Apply(cfg, rows, ops[0]), ops[1..])
  }
}
