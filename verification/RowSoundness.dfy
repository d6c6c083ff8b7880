/** What a row, at rest, always means about the chain, and which statements may be issued when. */
module RowSoundness {
  import opened Common
  import opened Watches
  import opened WatchLaws
  import opened ScanQueries
  import opened Chain
  import opened Lifecycle

  /** The confirmed service payment is the expected one and meets the immutable purchase terms. */
  ghost predicate Activated(world: World, r: Row, ev: Evidence, round: nat) {
    && r.expectedTx == Some(ev.tx) && r.expectedNetwork == Some(ev.network)
    && exists t :: world.byId(ev.tx) == Some(t) && t.round == round && MeetsTerms(r, t)
  }

  /** No confirmed transaction is the expected one and meets the terms on the configured network. */
  ghost predicate NeverPaid(world: World, r: Row) {
    r.terms.Some? && r.expectedTx.Some? && r.expectedNetwork == Some(world.network) ==>
      forall t | world.byId(r.expectedTx.value) == Some(t) :: !MeetsTerms(r, t)
  }

  ghost predicate RowSound(world: World, r: Row) {
    && (r.evidenceVersion == 1 <==> r.terms.Some?)
    && (r.terms.Some? ==> && Truthy(r.expectedTx) && Truthy(r.expectedNetwork)
                          && forall t | world.byId(r.expectedTx.value) == Some(t) ::
                               r.terms.value.firstValid <= t.round <= r.terms.value.lastValid)
    && (r.activationRound.Some? ==> r.service.Some? && Activated(world, r, r.service.value, r.activationRound.value))
    && (r.scanAfter.Some? ==> Covered(world, r, r.scanAfter.value))
    && (r.closing.Some? && r.expiresAt.Some? ==> r.expiresAt.value <= world.time(r.closing.value) * 1000)
    && (r.matched.Some? ==> Paid(world, r, r.matched.value))
    && (r.state == Expired ==> r.expiresAt.Some?)
    && (r.state == SettlementUnknown && r.terminal ==> NeverPaid(world, r))
  }

  ghost predicate TableSound(world: World, rows: Rows) {
    WellFormedTable(rows) && forall id | id in rows :: RowSound(world, rows[id])
  }

  /** The evidence a worker must hold before it may issue a statement against the row. */
  ghost predicate Justified(world: World, op: Op, r: Row) {
    match op
    case MarkMatched(_, tx, round) => Paid(world, r, Match(tx, round))
    case AdvanceScan(_, expected, round) => r.scanAfter == Some(expected) ==> Covered(world, r, round)
    case SetClosing(_, round) => r.expiresAt.Some? ==> r.expiresAt.value <= world.time(round) * 1000
    case MarkExpired(_, _, _) => r.expiresAt.Some?
    case Activate(_, ev, baseline, _) => baseline.Some? && Activated(world, r, ev, baseline.value)
    case MarkInvalid(_) => NeverPaid(world, r)
    case Prepare(_, _, intent, _) => true
    case _ => true
  }

  lemma SameContract(world: World, r: Row, later: Row)
    requires r.spec == later.spec && r.activationRound == later.activationRound && r.expiresAt == later.expiresAt
    ensures forall n: nat :: Covered(world, r, n) == Covered(world, later, n)
    ensures forall m :: Paid(world, r, m) == Paid(world, later, m)
    ensures Unpaid(world, r) == Unpaid(world, later)
  {
    assert forall t :: Matches(t, r) == Matches(t, later);
    forall q, k: nat, p: nat, t ensures FirstDelivered(world, r, q, k, p, t) == FirstDelivered(world, later, q, k, p, t) {
      if FirstDelivered(world, r, q, k, p, t) {
        assert FirstDelivered(world, later, q, k, p, t);
      }
    }
  }

  lemma BaselineCovers(world: World, r: Row, n: nat)
    requires r.activationRound == Some(n)
    ensures Covered(world, r, n)
  {
  }

  lemma SoundIfActivated(world: World, op: Op, r: Row)
    requires op.Activate? && WellFormed(r) && RowSound(world, r) && Justified(world, op, r)
    ensures RowSound(world, UpdateRow(op, r))
  {
    var later := UpdateRow(op, r);
    if later != r { BaselineCovers(world, later, op.baseline.value); }
    hide Covered, Paid, EvidenceFits;
  }

  /** A waiting row has no scan yet; what settles it without activating it leaves its meaning alone. */
  lemma SoundIfSettled(world: World, op: Op, r: Row)
    requires (op.RecordCandidate? || op.MarkInvalid?) && WellFormed(r) && RowSound(world, r) && Justified(world, op, r)
    ensures RowSound(world, UpdateRow(op, r))
  {
    SameContract(world, r, UpdateRow(op, r));
    hide Covered, Paid, EvidenceFits;
  }

  /** The columns that say something about the chain. */
  ghost predicate SameMeaning(r: Row, later: Row) {
    && later.spec == r.spec && later.activationRound == r.activationRound && later.expiresAt == r.expiresAt
    && later.evidenceVersion == r.evidenceVersion && later.terms == r.terms && later.service == r.service
    && later.expectedTx == r.expectedTx && later.expectedNetwork == r.expectedNetwork && later.expectedPayer == r.expectedPayer
    && later.scanAfter == r.scanAfter && later.closing == r.closing && later.matched == r.matched
    && (later.state == Expired ==> r.state == Expired)
    && (later.state == SettlementUnknown && later.terminal ==> r.state == SettlementUnknown && r.terminal)
  }

  lemma SameAgreement(world: World, r: Row, later: Row)
    requires later.terms == r.terms && later.expectedTx == r.expectedTx
    requires later.expectedNetwork == r.expectedNetwork && later.expectedPayer == r.expectedPayer
    ensures forall ev, round :: Activated(world, later, ev, round) == Activated(world, r, ev, round)
    ensures NeverPaid(world, later) == NeverPaid(world, r)
  {
    assert forall t :: MeetsTerms(later, t) == MeetsTerms(r, t);
    hide MeetsTerms;
  }

  lemma MeaningKept(world: World, r: Row, later: Row)
    requires RowSound(world, r) && SameMeaning(r, later)
    ensures RowSound(world, later)
  {
    SameContract(world, r, later);
    SameAgreement(world, r, later);
    hide Covered, Paid, Activated, NeverPaid;
  }

  predicate Scans(op: Op) {
    op.MarkMatched? || op.AdvanceScan? || op.SetClosing? || op.MarkExpired?
  }

  lemma UpkeepMeansNothing(op: Op, r: Row)
    requires !op.Activate? && !op.RecordCandidate? && !op.MarkInvalid? && !Scans(op)
    ensures SameMeaning(r, UpdateRow(op, r))
  {
    hide Eligible, ValidFailure;
  }

  lemma SoundIfMoved(world: World, op: Op, r: Row)
    requires op.AdvanceScan? || op.SetClosing?
    requires RowSound(world, r) && Justified(world, op, r)
    ensures RowSound(world, UpdateRow(op, r))
  {
    SameContract(world, r, UpdateRow(op, r));
    SameAgreement(world, r, UpdateRow(op, r));
    hide Covered, Paid, Activated, NeverPaid;
    if op.AdvanceScan? {} else {}
  }

  lemma SoundIfClosed(world: World, op: Op, r: Row)
    requires op.MarkMatched? || op.MarkExpired?
    requires RowSound(world, r) && Justified(world, op, r)
    ensures RowSound(world, UpdateRow(op, r))
  {
    SameContract(world, r, UpdateRow(op, r));
    SameAgreement(world, r, UpdateRow(op, r));
    hide Covered, Paid, Activated, NeverPaid;
    if op.MarkMatched? {} else {}
  }

  /** A statement that its issuer may issue keeps what the row means. */
  lemma UpdateSound(world: World, op: Op, r: Row)
    requires WellFormed(r) && RowSound(world, r) && Justified(world, op, r)
    ensures RowSound(world, UpdateRow(op, r))
  {
    hide RowSound, WellFormed, Justified, UpdateRow, SameMeaning;
    if op.Activate? {
      SoundIfActivated(world, op, r);
    } else if op.RecordCandidate? || op.MarkInvalid? {
      SoundIfSettled(world, op, r);
    } else if op.AdvanceScan? || op.SetClosing? {
      SoundIfMoved(world, op, r);
    } else if op.MarkMatched? || op.MarkExpired? {
      SoundIfClosed(world, op, r);
    } else {
      UpkeepMeansNothing(op, r);
      MeaningKept(world, r, UpdateRow(op, r));
    }
  }
}
