/** What a purchase finds in the table, and what it stores when it finds nothing in its way. */
module Purchases {
  import opened Common
  import opened Watches
  import opened WatchLaws

  /** Every column of a row that a purchase at this time has just inserted. */
  predicate JustSold(cfg: Config, r: Row, id: Id, spec: Spec, intent: Option<Intent>, at: int) {
    && r.id == id && r.spec == spec && r.state.SettlementPending? && !r.terminal
    && r.createdAt == at && r.expiresAt == Some(at + cfg.ttl) && r.budget == Some(cfg.workBudget) && r.used == 0
    && r.service.None? && r.activationRound.None? && r.activatedAt.None? && r.scanAfter.None?
    && r.closing.None? && r.matched.None? && r.reason.None?
    && r.attempts == 0 && r.nextAttemptAt.None? && r.failure.None? && r.failureCount == 0 && r.retryAt.None?
    && match intent
       case None =>
         r.expectedTx.None? && r.expectedNetwork.None? && r.expectedPayer.None? && r.terms.None? && r.evidenceVersion == 0
       case Some(i) =>
         && r.expectedTx == Some(i.tx) && r.expectedNetwork == Some(i.network) && r.expectedPayer == i.payer
         && r.terms == Some(i.terms) && r.evidenceVersion == 1
  }

  /** Who asks: a payer that is named and not empty, or nobody. */
  function Asker(intent: Option<Intent>): Option<string> {
    if intent.Some? && intent.value.payer.Some? && intent.value.payer.value != "" then intent.value.payer else None
  }

  /** The row is this payer's under the key; with nobody named, it is one that has no payer at all. */
  predicate AnswersTo(r: Row, asker: Option<string>, key: string) {
    r.expectedPayer == asker && r.spec.key == key
  }

  ghost predicate Holds(rows: Rows, asker: Option<string>, key: string) {
    exists id :: id in rows && AnswersTo(rows[id], asker, key)
  }

  predicate SameTerms(a: Spec, b: Spec) {
    a.sender == b.sender && a.receiver == b.receiver && a.asset == b.asset && a.amount == b.amount && a.note == b.note
  }

  /** Another row has the expected transaction of the purchase, or its place in the idempotency scope. */
  ghost predicate Taken(rows: Rows, spec: Spec, intent: Option<Intent>) {
    exists id :: && id in rows
                 && (|| (rows[id].expectedPayer.GetOr("") == (if intent.Some? then intent.value.payer.GetOr("") else "")
                         && rows[id].spec.key == spec.key)
                     || (intent.Some? && rows[id].expectedTx == Some(intent.value.tx)))
  }

  /** Nothing under the key answers the asker, and no payer-less row reserves it. */
  ghost predicate Unclaimed(rows: Rows, asker: Option<string>, key: string) {
    !Holds(rows, asker, key) && !Holds(rows, None, key)
  }

  /** The unique columns of a row just sold are taken exactly when the table does not admit it. */
  lemma AdmittedUnlessTaken(cfg: Config, rows: Rows, r: Row, id: Id, spec: Spec, intent: Option<Intent>, at: int)
    requires id !in rows && JustSold(cfg, r, id, spec, intent, at)
    ensures Admits(rows, id, r) <==> !Taken(rows, spec, intent)
  {
  }

  lemma FoundWhenHeld(rows: Rows, key: string, payer: Option<string>)
    ensures var asker := if Truthy(payer) then payer else None;
            var found := FindIdempotencyRow(rows, key, payer);
            && (found.None? <==> Unclaimed(rows, asker, key))
            && (found.Some? ==> && found.value in rows.Values
                                && (if Holds(rows, asker, key) then AnswersTo(found.value, asker, key) else AnswersTo(found.value, None, key)))
  {
    var exact := if Truthy(payer) then FindRow(rows, r => PayerRow(r, payer.value, key)) else None;
    var legacy := FindRow(rows, r => LegacyRow(r, key));
    hide FindRow;
    if Truthy(payer) {
      assert forall id | id in rows :: PayerRow(rows[id], payer.value, key) == AnswersTo(rows[id], payer, key);
    }
    assert forall id | id in rows :: LegacyRow(rows[id], key) == AnswersTo(rows[id], None, key);
  }

  /** The watch still obliges the service: not closed, and not rejected for good. */
  predicate Obliges(r: Row) {
    r.state.SettlementPending? || r.state.Active? || (r.state.SettlementUnknown? && !r.terminal)
  }

  /** Whose obligation: the payer expected at the purchase, or else the one whose settlement activated it. */
  predicate ObligesFor(r: Row, payer: string) {
    && Obliges(r)
    && (r.expectedPayer == Some(payer) || (r.expectedPayer.None? && r.service.Some? && r.service.value.payer == Some(payer)))
  }

  function Obligations(rows: Rows): set<Id> { set id | id in rows && Obliges(rows[id]) }

  function ObligationsFor(rows: Rows, payer: string): set<Id> { set id | id in rows && ObligesFor(rows[id], payer) }

  lemma ObligationsCounted(rows: Rows, payer: string)
    ensures OpenIds(rows) == Obligations(rows) && OpenIdsOf(rows, payer) == ObligationsFor(rows, payer)
  {
    forall id | id in rows
      ensures Open(rows[id]) == Obliges(rows[id])
      ensures (Open(rows[id]) && PayerOf(rows[id]) == Some(payer)) == ObligesFor(rows[id], payer)
    {
    }
    hide Open, PayerOf, Obliges, ObligesFor;
  }

  /** Where the purchase stands once the key is free: the limits, then the unique indexes, then the insertion. */
  ghost predicate Room(cfg: Config, rows: Rows, asker: Option<string>) {
    |Obligations(rows)| < cfg.maxOpen && (asker.Some? ==> |ObligationsFor(rows, asker.value)| < cfg.maxOpenPerPayer)
  }

  /**
   Each outcome of a purchase happens exactly under its own condition on the table: a payer's key reserved by a
   payer-less row; the asker's own row, sold again or in conflict; either limit reached; a unique column taken; and
   otherwise a new row, every column of which is what was sold.
   */
  lemma OutcomeExactly(cfg: Config, rows: Rows, id: Id, spec: Spec, intent: Option<Intent>, at: int)
    ensures var p, asker := PrepareOutcome(cfg, rows, id, spec, intent, at), Asker(intent);
            var free := Unclaimed(rows, asker, spec.key);
            && (p.LegacyReserved? <==> asker.Some? && !Holds(rows, asker, spec.key) && Holds(rows, None, spec.key))
            && (p.Replayed? || p.SpecConflict? <==> Holds(rows, asker, spec.key))
            && (p.Replayed? || p.SpecConflict? ==>
                  p.row in rows.Values && AnswersTo(p.row, asker, spec.key) && (p.Replayed? <==> SameTerms(p.row.spec, spec)))
            && (p.GlobalCapacity? <==> free && |Obligations(rows)| >= cfg.maxOpen)
            && (p.PayerCapacity? <==> && free && |Obligations(rows)| < cfg.maxOpen
                                      && asker.Some? && |ObligationsFor(rows, asker.value)| >= cfg.maxOpenPerPayer)
            && (p.UniqueViolation? <==> free && Room(cfg, rows, asker) && (id in rows || Taken(rows, spec, intent)))
            && (p.Created? <==> free && Room(cfg, rows, asker) && id !in rows && !Taken(rows, spec, intent))
            && (p.Created? ==> JustSold(cfg, p.row, id, spec, intent, at))
  {
    FoundWhenHeld(rows, spec.key, PayerOfIntent(intent));
    var r := NewRow(cfg, id, spec, intent, at);
    if id !in rows { AdmittedUnlessTaken(cfg, rows, r, id, spec, intent, at); }
    ObligationsCounted(rows, if Asker(intent).Some? then Asker(intent).value else "");
    hide FindIdempotencyRow, Holds, Admits, Taken, OpenIds, OpenIdsOf, Obligations, ObligationsFor;
  }
}
