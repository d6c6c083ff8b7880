/**
 One reconciliation turn from end to end, left alone: lookup, current round, one search page, and what the watch is
 afterwards, errors included, in terms of the purchase terms, rounds and pages. Nothing in `Reconciled` refers to
 the machine's segments.
 */
module ReconcilingTurns {
  import opened Common
  import opened Watches
  import opened WatchLaws
  import opened WatchStore
  import opened ScanQueries
  import opened Chain
  import opened Lifecycle
  import opened RowSoundness
  import opened LifecycleSafety
  import opened LifecycleStatements
  import opened LifecycleTheorems
  import opened PollingTurns
  import opened PollingService

  /** What one turn meets: the lookup's answer, the current round, a search page, and the time of the next attempt. */
  datatype Errand = Errand(turn: nat, at: int, found: Option<Transfer>, round: nat, session: nat, page: AbsencePage, nextAt: int)

  // ---- What a turn is for ------------------------------------------------------------------

  /** A watch that waits for its settlement, sold with terms, and due. */
  predicate Reconcilable(w: Row, at: int) {
    && (w.state.SettlementPending? || w.state.SettlementUnknown?) && !w.terminal && w.evidenceVersion == 1
    && w.terms.Some? && w.expectedTx.Some? && w.expectedTx.value != "" && w.expectedNetwork.Some? && w.expectedPayer.Some?
    && (w.nextAttemptAt.Some? ==> w.nextAttemptAt.value <= at) && w.budget.Some? && w.used < w.budget.value
  }

  /** The transfer is the purchase: the named transaction, on this network, under the terms as signed. */
  predicate AsAgreed(world: World, w: Row, t: Transfer)
    requires w.terms.Some?
  {
    && w.expectedTx == Some(t.tx) && w.expectedNetwork == Some(world.network) && w.expectedPayer == Some(t.sender)
    && t.receiver == w.terms.value.receiver && t.asset == w.terms.value.asset && t.amount == w.terms.value.amount
    && w.terms.value.firstValid <= t.round && t.round <= w.terms.value.lastValid
  }

  /** Another watch has this service payment already. */
  ghost predicate PaymentTaken(rows: Rows, id: Id, tx: string) {
    exists other :: && other in rows && other != id && rows[other].service.Some? && rows[other].service.value.tx == tx
  }

  function Deferred(w: Row, nextAt: int): Row {
    w.(attempts := w.attempts + 1, nextAttemptAt := Some(nextAt))
  }

  function Rejected(w: Row): Row {
    w.(state := SettlementUnknown, terminal := true)
  }

  /** Active by the confirmed transfer: scanning starts after its round. */
  function ActivatedRow(world: World, r: Row, found: Transfer, at: int): Row {
    r.(state := Active, service := Some(Evidence(found.tx, world.network, Some(found.sender))), activationRound := Some(found.round),
       activatedAt := Some(at), scanAfter := Some(found.round))
  }

  /** A confirmed transfer: activation from its round if it is what was agreed, rejection if not. */
  ghost function AfterConfirmed(world: World, s: State, w: Row, t: Transfer, e: Errand): Row
    requires w.terms.Some?
  {
    if !AsAgreed(world, w, t) then Rejected(w)
    else if PaymentTaken(s.rows, w.id, t.tx) then Deferred(w, e.nextAt)
    else ActivatedRow(world, w, t, e.at)
  }

  /** The search of this watch's transaction that is under way. */
  ghost predicate Searching(s: State, w: Row) {
    w.id in s.proofOf && s.proofOf[w.id] in s.proofs && Some(s.proofs[s.proofOf[w.id]].tx) == w.expectedTx
  }

  /** The search as this turn takes it up: the one under way, or a new one. */
  ghost function Search(s: State, w: Row): ProofSession
    requires w.expectedTx.Some?
  {
    if Searching(s, w) then s.proofs[s.proofOf[w.id]] else ProofSession(w.id, w.expectedTx.value, None, {}, None, 0)
  }

  /** The lowest round any page of the search has reported. */
  function Lowest(before: Option<nat>, round: nat): nat {
    if before.Some? && before.value < round then before.value else round
  }

  /** The search goes on with the page's token unless it was seen before. */
  predicate Repeats(search: ProofSession, next: string) {
    search.next == Some(next) || next in search.seen
  }

  /** The watch after a search page. */
  ghost function AfterPage(world: World, s: State, w: Row, search: ProofSession, e: Errand): Row
    requires w.terms.Some?
  {
    if e.page.items != [] then AfterConfirmed(world, s, w, e.page.items[0], e)
    else if e.page.next.None? && Lowest(search.coverage, e.page.currentRound) > w.terms.value.lastValid then Rejected(w)
    else Deferred(w, e.nextAt)
  }

  /** Whether the turn asks for a search page at all. */
  ghost predicate Searches(s: State, w: Row, e: Errand)
    requires w.terms.Some?
  {
    Searching(s, w) || (e.found.None? && e.round > w.terms.value.lastValid)
  }

  /** The watch after one turn that nothing disturbs. */
  ghost function Reconciled(world: World, s: State, w: Row, e: Errand): Row
    requires w.terms.Some? && w.expectedTx.Some?
  {
    var charged := w.(used := w.used + 1);
    if Searches(s, w, e) then AfterPage(world, s, charged, Search(s, w), e)
    else if e.found.Some? then AfterConfirmed(world, s, charged, e.found.value, e)
    else Deferred(charged, e.nextAt)
  }

  /** The turn ends with its search one page further. */
  ghost predicate SearchGoesOn(s: State, w: Row, e: Errand)
    requires w.terms.Some? && w.expectedTx.Some?
  {
    Searches(s, w, e) && e.page.items == [] && e.page.next.Some? && !Repeats(Search(s, w), e.page.next.value)
  }

  /** The lookup's and the search's answers are the Indexer's honest ones. */
  ghost predicate HonestErrand(world: World, s: State, w: Row, e: Errand)
    requires w.expectedTx.Some?
  {
    && HonestLookup(world, w.expectedTx.value, e.found)
    && HonestAbsence(world, w.expectedTx.value, TokenSent(Search(s, w).next), e.page)
  }

  /** The sweep prunes, lists, reconciles, defers after an error, and prunes again. */
  function Steps(w: Row, e: Errand): seq<Event> {
    [PruneProof(w.id), List, BeginReconcile(e.turn, w, e.at, e.nextAt), LookupArrives(e.turn, e.found, e.at),
     RoundArrives(e.turn, e.round, e.session, e.nextAt), AbsenceArrives(e.turn, e.page, e.at, e.nextAt),
     ProofFails(e.turn, e.nextAt), PruneProof(w.id)]
  }

  // ---- Segments ----------------------------------------------------------------------------

  /** The turn's own snapshot: the row, but for the unit that was charged meanwhile. */
  ghost predicate Waiting(s: State, w: Row) {
    && w.id in s.rows && s.rows[w.id] == w.(used := s.rows[w.id].used)
    && (w.state.SettlementPending? || w.state.SettlementUnknown?) && !w.terminal && HasTerms(w)
  }

  ghost predicate SameSearches(s: State, later: State) {
    later.rows == s.rows && later.proofs == s.proofs && later.proofOf == s.proofOf
  }

  lemma Inquired(s: State, t: nat, turn: Turn, pc: Pc)
    requires turn.requests < 3
    ensures var later := Ask(s, t, turn, pc, MAX_RECONCILIATION_REQUESTS);
            SameSearches(s, later) && At(later, t, pc, turn.requests + 1)
  {
    hide Bump;
  }

  /** The watch still waits for its settlement, and the search is for the transaction it waits for. */
  ghost predicate KeepsSearch(s: State, id: Id) {
    && id in s.rows && Unsettled(s.rows[id]) && !s.rows[id].terminal && id in s.proofOf && s.proofOf[id] in s.proofs
    && s.rows[id].expectedTx == Some(s.proofs[s.proofOf[id]].tx)
  }

  /** Pruning drops a search exactly when it is no longer the watch's own. */
  lemma SearchPrunedExactly(s: State, id: Id)
    ensures DropStaleProof(s, id, RowOf(s.rows, id)) == s.(proofOf := if KeepsSearch(s, id) then s.proofOf else s.proofOf - {id})
  {
    assert id !in s.proofOf ==> s.proofOf - {id} == s.proofOf;
  }

  lemma ProofPruned(s: State, w: Row)
    requires w.id in s.rows && Waiting(s, w)
    ensures var later := DropStaleProof(s, w.id, RowOf(s.rows, w.id));
            && later == s.(proofOf := later.proofOf) && (w.id in later.proofOf <==> Searching(s, w))
            && (Searching(s, w) ==> later.proofOf[w.id] == s.proofOf[w.id])
  {
  }

  /** The charge, up to what the claimed turn does next. */
  lemma ReconcileClaimed(world: World, s: State, t: nat, w: Row, at: int, nextAt: int) returns (s1: State)
    requires WellFormedTable(s.rows) && w.id in s.rows && s.rows[w.id] == w && Reconcilable(w, at)
    ensures StepBeginReconcile(world, s, t, w, at, nextAt) == ClaimedReconcile(world, s1, t, w, nextAt)
    ensures s1 == s.(rows := s.rows[w.id := w.(used := w.used + 1)]) && WellFormedTable(s1.rows) && Waiting(s1, w)
  {
    hide Apply, WellFormedTable, ClaimedReconcile;
    var claim := Reconciliation(w.expectedTx.value, w.attempts);
    s1 := Store(world, s, Claim(w.id, claim, at));
    UpdateAdmitted(world.cfg, s.rows, Claim(w.id, claim, at));
  }

  /** Without a search under way, the turn looks the transaction up; otherwise it asks for the next page. */
  lemma ReconcileStarts(world: World, s: State, t: nat, w: Row, nextAt: int)
    requires Waiting(s, w)
    ensures var later := ClaimedReconcile(world, s, t, w, nextAt);
            && later.rows == s.rows && later.proofs == s.proofs
            && (w.id in later.proofOf <==> Searching(s, w)) && (Searching(s, w) ==> later.proofOf[w.id] == s.proofOf[w.id])
            && At(later, t, if Searching(s, w) then AwaitAbsence(w, s.proofOf[w.id], TokenSent(Search(s, w).next)) else AwaitLookup(w), 1)
  {
    hide Ask, At, Bump;
    var turn, s1 := NewTurn(s, w.id, 0, FailingProof(w)), OpenUnit(s, w.id);
    var s2 := DropStaleProof(s1, w.id, Some(w));
    if Searching(s, w) {
      Inquired(s2, t, turn, AwaitAbsence(w, s.proofOf[w.id], TokenSent(Search(s, w).next)));
    } else {
      Inquired(s2, t, turn, AwaitLookup(w));
    }
  }

  /** Nothing confirmed: on to the current round. */
  lemma LookupAbsent(world: World, s: State, t: nat, turn: Turn, w: Row, at: int)
    requires turn.pc == AwaitLookup(w) && turn.requests < 3 && w.expectedTx.Some?
    ensures var later := StepLookup(world, s, t, turn, None, at); SameSearches(s, later) && At(later, t, AwaitRound(w), turn.requests + 1)
  {
    hide Ask, At;
    Inquired(s, t, turn, AwaitRound(w));
  }

  /** Still inside the validity window: the watch is deferred, and no search begins. */
  lemma RoundTooEarly(world: World, s: State, t: nat, turn: Turn, w: Row, round: nat, session: nat, nextAt: int)
    requires WellFormedTable(s.rows) && Waiting(s, w) && turn.pc == AwaitRound(w) && round <= w.terms.value.lastValid
    ensures var later := StepRound(world, s, t, turn, round, session, nextAt);
            && t !in later.turns && later.rows == s.rows[w.id := Deferred(s.rows[w.id], nextAt)]
            && later.proofs == s.proofs && later.proofOf == s.proofOf
  {
    hide Apply, WellFormedTable;
    UpdateAdmitted(world.cfg, s.rows, Defer(w.id, nextAt));
  }

  /** Past the validity window: a search of the watch's own begins, and its first page is asked for without a token. */
  lemma RoundOpensSearch(world: World, s: State, t: nat, turn: Turn, w: Row, round: nat, session: nat, nextAt: int)
    requires Waiting(s, w) && turn.pc == AwaitRound(w) && turn.requests < 3 && round > w.terms.value.lastValid
    ensures var later := StepRound(world, s, t, turn, round, session, nextAt);
            && later.rows == s.rows && later.proofOf == s.proofOf[w.id := session]
            && later.proofs == s.proofs[session := ProofSession(w.id, w.expectedTx.value, None, {}, None, 0)]
            && At(later, t, AwaitAbsence(w, session, None), turn.requests + 1)
  {
    hide Ask, At;
    var proof := ProofSession(w.id, w.expectedTx.value, None, {}, None, 0);
    var s1 := s.(proofs := s.proofs[session := proof], proofOf := s.proofOf[w.id := session]);
    Inquired(s1, t, turn, AwaitAbsence(w, session, None));
  }

  // ---- A confirmed transfer ----------------------------------------------------------------

  lemma TakenExactly(world: World, rows: Rows, id: Id, r: Row, found: Transfer, at: int)
    requires WellFormedTable(rows) && id in rows && Unsettled(rows[id])
    requires r == ActivatedRow(world, rows[id], found, at)
    ensures Admits(rows, id, r) <==> !PaymentTaken(rows, id, found.tx)
  {
    hide WellFormed, Clash;
    forall other | other in rows && other != id
      ensures Clash(r, rows[other]) <==> rows[other].service.Some? && rows[other].service.value.tx == found.tx
    {
      assert !Clash(rows[id], rows[other]);
      OnlyServiceClashes(rows[id], r, rows[other], found.tx);
    }
  }

  lemma OnlyServiceClashes(before: Row, r: Row, other: Row, tx: string)
    requires !Clash(before, other) && r.spec == before.spec && r.expectedPayer == before.expectedPayer && r.expectedTx == before.expectedTx
    requires r.service.Some? && r.service.value.tx == tx
    ensures Clash(r, other) <==> other.service.Some? && other.service.value.tx == tx
  {
  }

  /** The turn is over with this row, or waits for its error to be recorded, which defers the row. */
  ghost predicate EndsAs(rows: Rows, later: State, t: nat, w: Row, r: Row, nextAt: int)
    requires w.id in rows
  {
    || (t !in later.turns && later.rows == rows[w.id := r])
    || (t in later.turns && later.turns[t].pc == FailingProof(w) && later.rows == rows && r == Deferred(rows[w.id], nextAt))
  }

  lemma TransferRejected(world: World, s: State, t: nat, turn: Turn, w: Row, found: Transfer, at: int)
    requires WellFormedTable(s.rows) && Waiting(s, w) && !turn.pc.AwaitActivation? && turn.pc.w == w && !AsAgreed(world, w, found)
    ensures var later := ApplyConfirmed(world, s, t, turn, found, at);
            t !in later.turns && later.rows == s.rows[w.id := Rejected(s.rows[w.id])] && w.id !in later.proofOf
  {
    hide Apply, WellFormedTable, ActivationThrows;
    UpdateAdmitted(world.cfg, s.rows, MarkInvalid(w.id));
  }

  lemma AgreedFits(world: World, r: Row, found: Transfer, op: Op)
    requires Unsettled(r) && !r.terminal && r.terms.Some? && AsAgreed(world, r, found)
    requires op.Activate? && op.ev == Evidence(found.tx, world.network, Some(found.sender)) && op.baseline == Some(found.round)
    ensures EvidenceFits(r, op.ev) && UpdateRow(op, r) == ActivatedRow(world, r, found, op.at)
  {
  }

  lemma AgreedActivates(world: World, rows: Rows, id: Id, found: Transfer, op: Op)
    requires WellFormedTable(rows) && id in rows && Unsettled(rows[id]) && !rows[id].terminal && rows[id].terms.Some? && AsAgreed(world, rows[id], found)
    requires op.Activate? && op.id == id && op.ev == Evidence(found.tx, world.network, Some(found.sender)) && op.baseline == Some(found.round)
    ensures ActivationThrows(rows, op) <==> PaymentTaken(rows, id, found.tx)
    ensures !PaymentTaken(rows, id, found.tx) ==> Apply(world.cfg, rows, op) == rows[id := ActivatedRow(world, rows[id], found, op.at)]
  {
    AgreedFits(world, rows[id], found, op);
    hide UpdateRow, EvidenceFits, WellFormedTable, Admits, PaymentTaken, AsAgreed;
    TakenExactly(world, rows, id, ActivatedRow(world, rows[id], found, op.at), found, op.at);
  }

  lemma SameAgreement(world: World, w: Row, r: Row, found: Transfer)
    requires w.terms.Some? && r == w.(used := r.used)
    ensures AsAgreed(world, r, found) == AsAgreed(world, w, found)
  {
  }

  lemma ConfirmedAgreed(world: World, s: State, t: nat, turn: Turn, found: Transfer, at: int)
    requires !turn.pc.AwaitActivation? && turn.pc.w.terms.Some? && AsAgreed(world, turn.pc.w, found)
    ensures var w := turn.pc.w;
            var op, s1 := Activate(w.id, Evidence(found.tx, world.network, Some(found.sender)), Some(found.round), at), ForgetProof(s, w.id);
            ApplyConfirmed(world, s, t, turn, found, at) == (if ActivationThrows(s.rows, op) then Suspend(s1, t, turn, FailingProof(w)) else Finish(Store(world, s1, op), t))
  {
    hide Apply, ActivationThrows, Suspend, Finish, ForgetProof;
  }

  /** Another watch has the payment: activation fails, and the turn waits for that error. */
  lemma TransferTaken(world: World, s: State, t: nat, turn: Turn, w: Row, found: Transfer, at: int)
    requires WellFormedTable(s.rows) && Waiting(s, w) && !turn.pc.AwaitActivation? && turn.pc.w == w && AsAgreed(world, w, found)
    requires PaymentTaken(s.rows, w.id, found.tx)
    ensures var later := ApplyConfirmed(world, s, t, turn, found, at);
            w.id !in later.proofOf && t in later.turns && later.turns[t].pc == FailingProof(w) && later.rows == s.rows
  {
    hide WellFormedTable, PaymentTaken, Apply, ActivationThrows, ApplyConfirmed, AsAgreed;
    ConfirmedAgreed(world, s, t, turn, found, at);
    SameAgreement(world, w, s.rows[w.id], found);
    AgreedActivates(world, s.rows, w.id, found, Activate(w.id, Evidence(found.tx, world.network, Some(found.sender)), Some(found.round), at));
  }

  lemma TransferActivates(world: World, s: State, t: nat, turn: Turn, w: Row, found: Transfer, at: int)
    requires WellFormedTable(s.rows) && Waiting(s, w) && !turn.pc.AwaitActivation? && turn.pc.w == w && AsAgreed(world, w, found)
    requires !PaymentTaken(s.rows, w.id, found.tx)
    ensures var later := ApplyConfirmed(world, s, t, turn, found, at);
            w.id !in later.proofOf && t !in later.turns && later.rows == s.rows[w.id := ActivatedRow(world, s.rows[w.id], found, at)]
  {
    hide WellFormedTable, PaymentTaken, Apply, ActivationThrows, ApplyConfirmed, AsAgreed, ActivatedRow;
    ConfirmedAgreed(world, s, t, turn, found, at);
    SameAgreement(world, w, s.rows[w.id], found);
    AgreedActivates(world, s.rows, w.id, found, Activate(w.id, Evidence(found.tx, world.network, Some(found.sender)), Some(found.round), at));
  }

  lemma ConfirmedSettles(world: World, s: State, t: nat, turn: Turn, w: Row, found: Transfer, e: Errand)
    requires WellFormedTable(s.rows) && Waiting(s, w) && !turn.pc.AwaitActivation? && turn.pc.w == w
    ensures var later := ApplyConfirmed(world, s, t, turn, found, e.at);
            EndsAs(s.rows, later, t, w, AfterConfirmed(world, s, s.rows[w.id], found, e), e.nextAt) && w.id !in later.proofOf
  {
    hide WellFormedTable, ApplyConfirmed, PaymentTaken;
    if AsAgreed(world, w, found) {
      if PaymentTaken(s.rows, w.id, found.tx) {
        TransferTaken(world, s, t, turn, w, found, e.at);
      } else {
        TransferActivates(world, s, t, turn, w, found, e.at);
      }
    } else {
      TransferRejected(world, s, t, turn, w, found, e.at);
    }
  }

  // ---- A search page -----------------------------------------------------------------------

  /** The turn waits for the answer to its search, which stands here. */
  ghost predicate Asking(s: State, t: nat, turn: Turn, w: Row, session: nat, token: Option<string>, search: ProofSession) {
    turn.pc == AwaitAbsence(w, session, token) && session in s.proofs && s.proofs[session] == search
  }

  /** The search with the round this page reported. */
  function WithRound(search: ProofSession, round: nat): ProofSession {
    search.(coverage := Some(Lowest(search.coverage, round)))
  }

  function OnePageOn(search: ProofSession, page: AbsencePage): ProofSession
    requires page.next.Some?
  {
    WithRound(search, page.currentRound).(next := page.next, seen := search.seen + {page.next.value}, consumed := search.consumed + 1)
  }

  lemma PageConfirms(world: World, s: State, t: nat, turn: Turn, w: Row, session: nat, token: Option<string>, search: ProofSession, e: Errand)
    requires WellFormedTable(s.rows) && Waiting(s, w) && Asking(s, t, turn, w, session, token, search)
    requires HonestAbsence(world, w.expectedTx.value, token, e.page) && e.page.items != []
    ensures var later := StepAbsence(world, s, t, turn, e.page, e.at, e.nextAt);
            EndsAs(s.rows, later, t, w, AfterPage(world, s, s.rows[w.id], search, e), e.nextAt) && w.id !in later.proofOf
  {
    hide WellFormedTable, HonestAbsence, ApplyConfirmed, AsAgreed, PaymentTaken, EndsAs;
    var s1 := PutProof(s, session, WithRound(search, e.page.currentRound));
    assert StepAbsence(world, s, t, turn, e.page, e.at, e.nextAt) == ApplyConfirmed(world, s1, t, turn, e.page.items[0], e.at);
    ConfirmedSettles(world, s1, t, turn, w, e.page.items[0], e);
  }

  lemma PageFails(world: World, s: State, t: nat, turn: Turn, w: Row, session: nat, token: Option<string>, search: ProofSession, e: Errand)
    requires Waiting(s, w) && Asking(s, t, turn, w, session, token, search)
    requires HonestAbsence(world, w.expectedTx.value, token, e.page) && e.page.items == []
    requires if e.page.next.Some? then Repeats(search, e.page.next.value) else Lowest(search.coverage, e.page.currentRound) <= w.terms.value.lastValid
    ensures var later := StepAbsence(world, s, t, turn, e.page, e.at, e.nextAt);
            t in later.turns && later.turns[t].pc == FailingProof(w) && later.rows == s.rows
  {
    hide HonestAbsence, ApplyConfirmed, Store;
  }

  lemma PageMovesOn(world: World, s: State, t: nat, turn: Turn, w: Row, session: nat, token: Option<string>, search: ProofSession, e: Errand)
    requires WellFormedTable(s.rows) && Waiting(s, w) && Asking(s, t, turn, w, session, token, search)
    requires HonestAbsence(world, w.expectedTx.value, token, e.page) && e.page.items == []
    requires e.page.next.Some? && !Repeats(search, e.page.next.value)
    ensures var later := StepAbsence(world, s, t, turn, e.page, e.at, e.nextAt);
            && t !in later.turns && later.rows == s.rows[w.id := Deferred(s.rows[w.id], e.nextAt)]
            && later.proofOf == s.proofOf && later.proofs == s.proofs[session := OnePageOn(search, e.page)]
  {
    hide WellFormedTable, HonestAbsence, ApplyConfirmed, Apply;
    UpdateAdmitted(world.cfg, s.rows, Defer(w.id, e.nextAt));
  }

  lemma PageProves(world: World, s: State, t: nat, turn: Turn, w: Row, session: nat, token: Option<string>, search: ProofSession, e: Errand)
    requires WellFormedTable(s.rows) && Waiting(s, w) && Asking(s, t, turn, w, session, token, search)
    requires HonestAbsence(world, w.expectedTx.value, token, e.page) && e.page.items == []
    requires e.page.next.None? && Lowest(search.coverage, e.page.currentRound) > w.terms.value.lastValid
    ensures var later := StepAbsence(world, s, t, turn, e.page, e.at, e.nextAt);
            t !in later.turns && later.rows == s.rows[w.id := Rejected(s.rows[w.id])] && w.id !in later.proofOf
  {
    hide WellFormedTable, HonestAbsence, ApplyConfirmed, Apply;
    UpdateAdmitted(world.cfg, s.rows, MarkInvalid(w.id));
  }

  /** The page decides the watch, moves the search on, or fails. */
  lemma PageSearched(world: World, s: State, t: nat, turn: Turn, w: Row, session: nat, token: Option<string>, search: ProofSession, e: Errand)
    requires WellFormedTable(s.rows) && Waiting(s, w) && Asking(s, t, turn, w, session, token, search)
    requires HonestAbsence(world, w.expectedTx.value, token, e.page)
    ensures var later := StepAbsence(world, s, t, turn, e.page, e.at, e.nextAt);
            && EndsAs(s.rows, later, t, w, AfterPage(world, s, s.rows[w.id], search, e), e.nextAt)
            && (if e.page.items == [] && e.page.next.Some? && !Repeats(search, e.page.next.value)
                then t !in later.turns && later.proofOf == s.proofOf && later.proofs == s.proofs[session := OnePageOn(search, e.page)]
                else w.id !in later.proofOf || t in later.turns)
  {
    hide WellFormedTable, HonestAbsence, StepAbsence, AfterConfirmed, Asking, Lowest, Repeats;
    if e.page.items != [] {
      PageConfirms(world, s, t, turn, w, session, token, search, e);
    } else if e.page.next.Some? {
      if Repeats(search, e.page.next.value) {
        PageFails(world, s, t, turn, w, session, token, search, e);
      } else {
        PageMovesOn(world, s, t, turn, w, session, token, search, e);
      }
    } else if Lowest(search.coverage, e.page.currentRound) > w.terms.value.lastValid {
      PageProves(world, s, t, turn, w, session, token, search, e);
    } else {
      PageFails(world, s, t, turn, w, session, token, search, e);
    }
  }
}
