/** Every reconciler segment and every settlement hook keeps the lifecycle invariant. */
module ReconcilingSafety {
  import opened Common
  import opened Watches
  import opened WatchLaws
  import opened ScanQueries
  import opened Chain
  import opened Lifecycle
  import opened RowSoundness
  import opened LifecycleSafety
  import opened PollingSafety

  // ---- Sessions ----------------------------------------------------------------------------

  lemma ForgetProofKeeps(world: World, s: State, id: Id)
    requires Inv(world, s)
    ensures Inv(world, ForgetProof(s, id))
  {
    hide TableSound, ListedSound, ScansSound, ScansOwned, ProofsSound, PagesSound, TurnsSound, PcSound;
  }

  lemma DropStaleProofKeeps(world: World, s: State, id: Id, w: Option<Row>)
    requires Inv(world, s)
    ensures Inv(world, DropStaleProof(s, id, w))
    ensures var s1 := DropStaleProof(s, id, w);
            && s1.rows == s.rows && s1.proofs == s.proofs
            && (id in s1.proofOf ==> s1.proofOf[id] in s.proofs && s.proofs[s1.proofOf[id]].watch == id
                                     && ProofFits(w, s.proofs[s1.proofOf[id]]))
  {
    hide TableSound, ListedSound, ScansSound, ScansOwned, ProofsSound, PagesSound, TurnsSound, PcSound, ProofFits;
    ForgetProofKeeps(world, s, id);
  }

  /** A fresh session, a consumed page, or lower coverage: other turns' evidence only gets weaker. */
  ghost predicate ProofsGrow(before: map<nat, ProofSession>, after: map<nat, ProofSession>) {
    forall i | i in before ::
      && i in after && after[i].watch == before[i].watch && after[i].tx == before[i].tx
      && before[i].consumed <= after[i].consumed
      && (before[i].coverage.Some? ==> after[i].coverage.Some? && after[i].coverage.value <= before[i].coverage.value)
  }

  lemma ProofsGrowPc(world: World, rows: Rows, scans: map<nat, ScanSession>, before: map<nat, ProofSession>,
                     after: map<nat, ProofSession>, pc: Pc)
    requires PcSound(world, rows, scans, before, pc) && ProofsGrow(before, after)
    ensures PcSound(world, rows, scans, after, pc)
  {
    hide Snapshot, AwaitPageSound, MeetsTerms;
    if pc.AwaitAbsence? {
      var x := before[pc.session].tx;
      if world.byId(x).Some? && Reaches(after[pc.session].coverage, pc.w.terms.value.lastValid) {
        var j: nat :| j <= before[pc.session].consumed && pc.token == FoundToken(world, x, j);
        assert j <= after[pc.session].consumed;
      }
    }
  }

  lemma ProofsGrowTurns(world: World, rows: Rows, scans: map<nat, ScanSession>, before: map<nat, ProofSession>,
                        after: map<nat, ProofSession>, turns: map<nat, Turn>)
    requires TurnsSound(world, rows, scans, before, turns) && ProofsGrow(before, after)
    ensures TurnsSound(world, rows, scans, after, turns)
  {
    hide PcSound, ProofsGrow;
    forall t | t in turns ensures PcSound(world, rows, scans, after, turns[t].pc) {
      ProofsGrowPc(world, rows, scans, before, after, turns[t].pc);
    }
  }

  lemma ProofPutKeeps(world: World, s: State, session: nat, proof: ProofSession)
    requires Inv(world, s) && ProofSound(world, s.rows, proof)
    requires session in s.proofs ==> ProofsGrow(s.proofs, s.proofs[session := proof])
    ensures Inv(world, PutProof(s, session, proof))
  {
    hide TableSound, ListedSound, ScansSound, ScansOwned, PagesSound, TurnsSound, PcSound, ProofSound;
    ProofsGrowTurns(world, s.rows, s.scans, s.proofs, s.proofs[session := proof], s.turns);
  }

  lemma SentTokenIsFoundToken(world: World, x: string, k: nat)
    requires Honest(world)
    ensures TokenSent(FoundToken(world, x, k)) == FoundToken(world, x, k)
  {
  }

  lemma ProofPcSound(world: World, rows: Rows, scans: map<nat, ScanSession>, proofs: map<nat, ProofSession>, w: Row)
    requires Snapshot(rows, w)
    ensures PcSound(world, rows, scans, proofs, FailingProof(w))
    ensures HasTerms(w) ==> PcSound(world, rows, scans, proofs, AwaitLookup(w)) && PcSound(world, rows, scans, proofs, AwaitRound(w))
  {
  }

  lemma SnapshotTerms(rows: Rows, w: Row)
    requires Snapshot(rows, w) && HasTerms(w)
    ensures w.id in rows && rows[w.id].terms == w.terms && rows[w.id].expectedTx == w.expectedTx
    ensures rows[w.id].expectedPayer == w.expectedPayer && rows[w.id].expectedNetwork == w.expectedNetwork
  {
  }

  /** The request for a session's next page names exactly the first page it has not consumed. */
  lemma NextProofAsked(world: World, s: State, w: Row, session: nat)
    requires Honest(world) && Inv(world, s) && Snapshot(s.rows, w) && HasTerms(w)
    requires session in s.proofs && s.proofs[session].watch == w.id && s.proofs[session].tx == w.expectedTx.value
    ensures PcSound(world, s.rows, s.scans, s.proofs, AwaitAbsence(w, session, TokenSent(s.proofs[session].next)))
  {
    hide TableSound, ListedSound, ScansSound, ScansOwned, ProofsOwned, PagesSound, TurnsSound, Honest, Snapshot;
    var proof := s.proofs[session];
    assert ProofSound(world, s.rows, proof);
    SnapshotTerms(s.rows, w);
    SentTokenIsFoundToken(world, proof.tx, proof.consumed);
    assert proof.consumed <= proof.consumed;
  }

  lemma RequestAbsenceKeeps(world: World, s: State, t: nat, turn: Turn, w: Row, session: nat)
    requires Honest(world) && Inv(world, s) && Snapshot(s.rows, w) && HasTerms(w)
    requires session in s.proofs && s.proofs[session].watch == w.id && s.proofs[session].tx == w.expectedTx.value
    ensures Inv(world, RequestAbsence(s, t, turn, w, session))
  {
    hide Honest, Inv, Snapshot, Ask, PcSound, HasTerms;
    NextProofAsked(world, s, w, session);
    AskKeeps(world, s, t, turn, AwaitAbsence(w, session, TokenSent(s.proofs[session].next)), MAX_RECONCILIATION_REQUESTS);
  }

  // ---- Statements and their evidence -------------------------------------------------------

  lemma DeferKeeps(world: World, s: State, id: Id, nextAt: int)
    requires Inv(world, s)
    ensures Inv(world, Store(world, s, Defer(id, nextAt)))
  {
    hide Inv;
    StoreKeeps(world, s, Defer(id, nextAt));
  }

  /** A claim keeps the invariant, and the snapshot stays a snapshot. */
  lemma ClaimKeeps(world: World, s: State, w: Row, claim: WorkClaim, at: int)
    requires Inv(world, s) && Snapshot(s.rows, w)
    ensures var s1 := Store(world, s, Claim(w.id, claim, at)); Inv(world, s1) && Snapshot(s1.rows, w)
  {
    hide Inv, Snapshot, Apply;
    StoreKeeps(world, s, Claim(w.id, claim, at));
    SnapshotKept(s.rows, Store(world, s, Claim(w.id, claim, at)).rows, w);
  }

  lemma ClaimedReconcileKeeps(world: World, s: State, t: nat, w: Row, nextAt: int)
    requires Honest(world) && Inv(world, s) && Snapshot(s.rows, w)
    ensures Inv(world, ClaimedReconcile(world, s, t, w, nextAt))
  {
    hide Honest, Inv, Ask, PcSound, Snapshot, Apply, RequestAbsence, DropStaleProof;
    var turn, s2 := NewTurn(s, w.id, 0, FailingProof(w)), OpenUnit(s, w.id);
    OpenUnitKeeps(world, s, w.id);
    if !HasTerms(w) {
      DeferKeeps(world, s2, w.id, nextAt);
    } else {
      var s3 := DropStaleProof(s2, w.id, Some(w));
      DropStaleProofKeeps(world, s2, w.id, Some(w));
      if w.id in s3.proofOf {
        RequestAbsenceKeeps(world, s3, t, turn, w, s3.proofOf[w.id]);
      } else {
        ProofPcSound(world, s3.rows, s3.scans, s3.proofs, w);
        AskKeeps(world, s3, t, turn, AwaitLookup(w), MAX_RECONCILIATION_REQUESTS);
      }
    }
  }

  lemma BeginReconcileKeeps(world: World, s: State, t: nat, w: Row, at: int, nextAt: int)
    requires Honest(world) && Inv(world, s) && Snapshot(s.rows, w)
    ensures Inv(world, StepBeginReconcile(world, s, t, w, at, nextAt))
  {
    hide Honest, Inv, PcSound, Snapshot, Apply, DropStaleProof, OutcomeOf, ClaimedReconcile;
    if Truthy(w.expectedTx) {
      var claim := Reconciliation(w.expectedTx.value, w.attempts);
      var s1 := Store(world, s, Claim(w.id, claim, at));
      ClaimKeeps(world, s, w, claim, at);
      match ClaimOutcomeOf(s.rows, w.id, claim, at) {
        case Exhausted => ForgetProofKeeps(world, s1, w.id);
        case Inactive => DropStaleProofKeeps(world, s1, w.id, RowOf(s1.rows, w.id));
        case Claimed => ClaimedReconcileKeeps(world, s1, t, w, nextAt);
      }
    }
  }

  lemma RejectKeeps(world: World, s: State, t: nat, id: Id)
    requires Inv(world, s) && (id in s.rows ==> NeverPaid(world, s.rows[id]))
    ensures Inv(world, Finish(Store(world, s, MarkInvalid(id)), t))
  {
    hide Inv, Apply, NeverPaid, Finish;
    StoreKeeps(world, s, MarkInvalid(id));
    FinishKeeps(world, Store(world, s, MarkInvalid(id)), t);
  }

  lemma MismatchNeverPaid(world: World, r: Row, found: Transfer)
    requires r.expectedTx.Some? ==> world.byId(r.expectedTx.value) == Some(found)
    requires !(r.expectedNetwork == Some(world.network) && MeetsTerms(r, found))
    ensures NeverPaid(world, r)
  {
  }

  lemma SameTerms(r: Row, later: Row, t: Transfer)
    requires r.terms == later.terms && r.expectedPayer == later.expectedPayer
    ensures MeetsTerms(r, t) == MeetsTerms(later, t)
  {
  }

  lemma ActivateKeeps(world: World, s: State, t: nat, id: Id, ev: Evidence, found: Transfer, at: int)
    requires Inv(world, s) && world.byId(ev.tx) == Some(found)
    requires id in s.rows ==> && s.rows[id].expectedTx == Some(ev.tx) && s.rows[id].expectedNetwork == Some(ev.network)
                              && MeetsTerms(s.rows[id], found)
    ensures Inv(world, Finish(Store(world, s, Activate(id, ev, Some(found.round), at)), t))
  {
    hide Inv, Apply, MeetsTerms, Finish;
    var op := Activate(id, ev, Some(found.round), at);
    StoreKeeps(world, s, op);
    FinishKeeps(world, Store(world, s, op), t);
  }

  lemma ApplyConfirmedKeeps(world: World, s: State, t: nat, turn: Turn, found: Transfer, at: int)
    requires Honest(world) && Inv(world, s) && !turn.pc.AwaitActivation?
    requires Snapshot(s.rows, turn.pc.w) && HasTerms(turn.pc.w)
    requires world.byId(turn.pc.w.expectedTx.value) == Some(found)
    ensures Inv(world, ApplyConfirmed(world, s, t, turn, found, at))
  {
    hide Inv, Snapshot, Apply, PcSound, Finish, Suspend, ActivationThrows, MeetsTerms, ChainSound, PartitionSound, NeverPaid, Without;
    var w := turn.pc.w;
    var s1 := ForgetProof(s, w.id);
    ForgetProofKeeps(world, s, w.id);
    SnapshotTerms(s.rows, w);
    SameTerms(w, s.rows[w.id], found);
    ProofPcSound(world, s1.rows, s1.scans, s1.proofs, w);
    if w.expectedTx == Some(found.tx) && w.expectedNetwork == Some(world.network) && MeetsTerms(w, found) {
      var ev := Evidence(found.tx, world.network, Some(found.sender));
      if ActivationThrows(s.rows, Activate(w.id, ev, Some(found.round), at)) {
        SuspendKeeps(world, s1, t, turn, FailingProof(w));
      } else {
        ActivateKeeps(world, s1, t, w.id, ev, found, at);
      }
    } else {
      MismatchNeverPaid(world, s.rows[w.id], found);
      RejectKeeps(world, s1, t, w.id);
    }
  }

  lemma LookupKeeps(world: World, s: State, t: nat, turn: Turn, found: Option<Transfer>, at: int)
    requires Honest(world) && Inv(world, s) && turn.pc.AwaitLookup?
    requires Snapshot(s.rows, turn.pc.w) && HasTerms(turn.pc.w)
    ensures Inv(world, StepLookup(world, s, t, turn, found, at))
  {
    hide Honest, Inv, Snapshot, ApplyConfirmed, Ask, PcSound;
    var w := turn.pc.w;
    if HonestLookup(world, w.expectedTx.value, found) {
      if found.Some? {
        ApplyConfirmedKeeps(world, s, t, turn, found.value, at);
      } else {
        ProofPcSound(world, s.rows, s.scans, s.proofs, w);
        AskKeeps(world, s, t, turn, AwaitRound(w), MAX_RECONCILIATION_REQUESTS);
      }
    }
  }

  lemma NewProofSound(world: World, rows: Rows, w: Row)
    requires Honest(world) && Snapshot(rows, w) && HasTerms(w)
    ensures ProofSound(world, rows, ProofSession(w.id, w.expectedTx.value, None, {}, None, 0))
  {
    hide Snapshot, ChainSound, PartitionSound;
    SnapshotTerms(rows, w);
    assert SeenFoundTokens(world, w.expectedTx.value, 0) == {};
  }

  lemma NewProofKeeps(world: World, s: State, w: Row, session: nat)
    requires Honest(world) && Inv(world, s) && Snapshot(s.rows, w) && HasTerms(w) && session !in s.proofs
    ensures var proof := ProofSession(w.id, w.expectedTx.value, None, {}, None, 0);
            Inv(world, s.(proofs := s.proofs[session := proof], proofOf := s.proofOf[w.id := session]))
  {
    hide Honest, TableSound, ListedSound, ScansSound, ScansOwned, PagesSound, TurnsSound, ProofSound, Snapshot;
    var proof := ProofSession(w.id, w.expectedTx.value, None, {}, None, 0);
    NewProofSound(world, s.rows, w);
    ProofsGrowTurns(world, s.rows, s.scans, s.proofs, s.proofs[session := proof], s.turns);
  }

  lemma RoundKeeps(world: World, s: State, t: nat, turn: Turn, round: nat, session: nat, nextAt: int)
    requires Honest(world) && Inv(world, s) && turn.pc.AwaitRound? && session !in s.proofs
    requires Snapshot(s.rows, turn.pc.w) && HasTerms(turn.pc.w)
    ensures Inv(world, StepRound(world, s, t, turn, round, session, nextAt))
  {
    hide Honest, Inv, Snapshot, RequestAbsence, Apply, Finish;
    var w := turn.pc.w;
    if round <= w.terms.value.lastValid {
      DeferKeeps(world, s, w.id, nextAt);
      FinishKeeps(world, Store(world, s, Defer(w.id, nextAt)), t);
    } else {
      var proof := ProofSession(w.id, w.expectedTx.value, None, {}, None, 0);
      NewProofKeeps(world, s, w, session);
      RequestAbsenceKeeps(world, s.(proofs := s.proofs[session := proof], proofOf := s.proofOf[w.id := session]), t, turn, w, session);
    }
  }

  // ---- The absence proof -------------------------------------------------------------------

  /** A search response that has arrived for a suspended turn, with everything known about it. */
  ghost predicate Searched(world: World, rows: Rows, proofs: map<nat, ProofSession>, w: Row, session: nat,
                           token: Option<string>, page: AbsencePage)
  {
    && session in proofs && HasTerms(w) && proofs[session].watch == w.id && proofs[session].tx == w.expectedTx.value
    && w.id in rows && rows[w.id].terms == w.terms && rows[w.id].expectedTx == w.expectedTx
    && RowSound(world, rows[w.id])
    && ProofSound(world, rows, proofs[session])
    && AwaitAbsenceSound(world, rows, proofs, w, session, token)
    && HonestAbsence(world, w.expectedTx.value, token, page)
  }

  /** While the session's coverage reaches past the validity window, its pages are those of the partition. */
  lemma SearchedPage(world: World, rows: Rows, proofs: map<nat, ProofSession>, w: Row, session: nat,
                     token: Option<string>, page: AbsencePage) returns (k: nat)
    requires Honest(world) && Searched(world, rows, proofs, w, session, token, page)
    requires world.byId(w.expectedTx.value).Some?
    requires w.terms.value.lastValid < Coverage(proofs[session].coverage, page.currentRound)
    ensures var x := w.expectedTx.value;
            && k <= proofs[session].consumed && k < |world.found(x)|
            && page.items == world.found(x)[k] && page.next == NextFoundToken(world, x, k)
  {
    hide ChainSound, PartitionSound, MeetsTerms;
    var x := w.expectedTx.value;
    var j: nat :| j <= proofs[session].consumed && token == FoundToken(world, x, j);
    k :| k < |world.found(x)| && token == FoundToken(world, x, k)
      && page.items == world.found(x)[k] && page.next == NextFoundToken(world, x, k);
    FoundTokenInjective(world, x, j, k);
  }

  lemma FoundTokenInjective(world: World, x: string, i: nat, j: nat)
    requires Honest(world) && FoundToken(world, x, i) == FoundToken(world, x, j)
    ensures i == j
  {
  }

  lemma CoveredProofSound(world: World, rows: Rows, proof: ProofSession, round: nat)
    requires ProofSound(world, rows, proof)
    ensures ProofSound(world, rows, proof.(coverage := Some(Coverage(proof.coverage, round))))
  {
  }

  lemma SeenFoundToken(world: World, x: string, j: nat, k: nat)
    ensures 1 <= j <= k ==> world.foundToken(x, j) in SeenFoundTokens(world, x, k)
  {
  }

  /** A new continuation token comes only after exactly the pages already consumed. */
  lemma NextProofSound(world: World, rows: Rows, proofs: map<nat, ProofSession>, w: Row, session: nat,
                       token: Option<string>, page: AbsencePage)
    requires Honest(world) && Searched(world, rows, proofs, w, session, token, page)
    requires page.items == [] && page.next.Some?
    requires page.next != proofs[session].next && page.next.value !in proofs[session].seen
    ensures var proof := proofs[session];
            ProofSound(world, rows, proof.(coverage := Some(Coverage(proof.coverage, page.currentRound)), next := page.next,
                                           seen := proof.seen + {page.next.value}, consumed := proof.consumed + 1))
  {
    hide ChainSound, PartitionSound, MeetsTerms, RowSound, HonestAbsence, AwaitAbsenceSound;
    var proof, x := proofs[session], w.expectedTx.value;
    if world.byId(x).Some? && w.terms.value.lastValid < Coverage(proof.coverage, page.currentRound) {
      var k := SearchedPage(world, rows, proofs, w, session, token, page);
      SeenFoundToken(world, x, k + 1, proof.consumed);
      assert k == proof.consumed;
      assert SeenFoundTokens(world, x, k + 1) == SeenFoundTokens(world, x, k) + {world.foundToken(x, k + 1)};
    }
  }

  lemma EveryPageEmpty(world: World, rows: Rows, proofs: map<nat, ProofSession>, w: Row, session: nat,
                       token: Option<string>, page: AbsencePage)
    requires Honest(world) && Searched(world, rows, proofs, w, session, token, page)
    requires page.items == [] && page.next.None?
    requires w.terms.value.lastValid < Coverage(proofs[session].coverage, page.currentRound)
    ensures var x := w.expectedTx.value; world.byId(x).Some? ==> forall j | 0 <= j < |world.found(x)| :: world.found(x)[j] == []
  {
    hide Honest, MeetsTerms, RowSound, HonestAbsence, AwaitAbsenceSound;
    if world.byId(w.expectedTx.value).Some? {
      var k := SearchedPage(world, rows, proofs, w, session, token, page);
      assert k == proofs[session].consumed;
    }
  }

  /** The last page arrives empty and coverage reached past the validity window: nothing was ever confirmed. */
  lemma AbsenceProved(world: World, rows: Rows, proofs: map<nat, ProofSession>, w: Row, session: nat,
                      token: Option<string>, page: AbsencePage)
    requires Honest(world) && Searched(world, rows, proofs, w, session, token, page)
    requires page.items == [] && page.next.None?
    requires w.terms.value.lastValid < Coverage(proofs[session].coverage, page.currentRound)
    ensures world.byId(w.expectedTx.value).None? && NeverPaid(world, rows[w.id])
  {
    hide ChainSound, PartitionSound, MeetsTerms, RowSound, HonestAbsence, AwaitAbsenceSound;
    EveryPageEmpty(world, rows, proofs, w, session, token, page);
  }

  lemma SearchedNow(world: World, s: State, turn: Turn, page: AbsencePage)
    requires Honest(world) && Inv(world, s) && turn.pc.AwaitAbsence? && PcSound(world, s.rows, s.scans, s.proofs, turn.pc)
    requires turn.pc.w.expectedTx.Some? && HonestAbsence(world, turn.pc.w.expectedTx.value, turn.pc.token, page)
    ensures Searched(world, s.rows, s.proofs, turn.pc.w, turn.pc.session, turn.pc.token, page)
    ensures Snapshot(s.rows, turn.pc.w)
  {
    hide Honest, ListedSound, ScansSound, ScansOwned, ProofsOwned, PagesSound, TurnsSound, RowSound, ProofSound;
    hide AwaitAbsenceSound, HonestAbsence, Evolves, WellFormed;
    AwaitAbsenceFacts(world, s.rows, s.scans, s.proofs, turn.pc);
    SnapshotTerms(s.rows, turn.pc.w);
    assert ProofSound(world, s.rows, s.proofs[turn.pc.session]);
  }

  lemma AwaitAbsenceFacts(world: World, rows: Rows, scans: map<nat, ScanSession>, proofs: map<nat, ProofSession>, pc: Pc)
    requires pc.AwaitAbsence? && PcSound(world, rows, scans, proofs, pc)
    ensures Snapshot(rows, pc.w) && HasTerms(pc.w) && pc.session in proofs
    ensures proofs[pc.session].watch == pc.w.id && proofs[pc.session].tx == pc.w.expectedTx.value
    ensures AwaitAbsenceSound(world, rows, proofs, pc.w, pc.session, pc.token)
  {
    hide Snapshot, MeetsTerms;
  }

  /** The session after the response lowered its coverage. */
  lemma LoweredKeeps(world: World, s: State, session: nat, round: nat)
    requires Inv(world, s) && session in s.proofs
    ensures var proof := s.proofs[session].(coverage := Some(Coverage(s.proofs[session].coverage, round)));
            Inv(world, PutProof(s, session, proof))
  {
    hide TableSound, ListedSound, ScansSound, ScansOwned, ProofsOwned, PagesSound, TurnsSound, PcSound, ProofSound;
    CoveredProofSound(world, s.rows, s.proofs[session], round);
    ProofPutKeeps(world, s, session, s.proofs[session].(coverage := Some(Coverage(s.proofs[session].coverage, round))));
  }

  lemma ItemsConfirmed(world: World, x: string, token: Option<string>, page: AbsencePage)
    requires HonestAbsence(world, x, token, page) && page.items != []
    ensures world.byId(x) == Some(page.items[0])
  {
  }

  lemma ProofContinuedKeeps(world: World, s: State, t: nat, turn: Turn, page: AbsencePage, nextAt: int)
    requires Honest(world) && Inv(world, s) && turn.pc.AwaitAbsence?
    requires Searched(world, s.rows, s.proofs, turn.pc.w, turn.pc.session, turn.pc.token, page)
    requires page.items == [] && page.next.Some?
    requires page.next != s.proofs[turn.pc.session].next && page.next.value !in s.proofs[turn.pc.session].seen
    ensures var proof := s.proofs[turn.pc.session];
            var later := proof.(coverage := Some(Coverage(proof.coverage, page.currentRound)), next := page.next,
                                seen := proof.seen + {page.next.value}, consumed := proof.consumed + 1);
            Inv(world, Finish(Store(world, PutProof(s, turn.pc.session, later), Defer(turn.pc.w.id, nextAt)), t))
  {
    hide Honest, Inv, Apply, Finish, RowSound, ProofSound, AwaitAbsenceSound, HonestAbsence, HasTerms;
    var session, proof := turn.pc.session, s.proofs[turn.pc.session];
    var later := proof.(coverage := Some(Coverage(proof.coverage, page.currentRound)), next := page.next,
                        seen := proof.seen + {page.next.value}, consumed := proof.consumed + 1);
    NextProofSound(world, s.rows, s.proofs, turn.pc.w, session, turn.pc.token, page);
    ProofPutKeeps(world, s, session, later);
    var s1 := PutProof(s, session, later);
    DeferKeeps(world, s1, turn.pc.w.id, nextAt);
    FinishKeeps(world, Store(world, s1, Defer(turn.pc.w.id, nextAt)), t);
  }

  lemma AbsenceKeeps(world: World, s: State, t: nat, turn: Turn, page: AbsencePage, at: int, nextAt: int)
    requires Honest(world) && Inv(world, s) && turn.pc.AwaitAbsence? && PcSound(world, s.rows, s.scans, s.proofs, turn.pc)
    ensures Inv(world, StepAbsence(world, s, t, turn, page, at, nextAt))
  {
    hide Honest, Inv, PcSound, Snapshot, Apply, Finish, Suspend, ApplyConfirmed, RowSound, ProofSound, AwaitAbsenceSound;
    hide HonestAbsence, NeverPaid, Without, Coverage, PutProof, ForgetProof, Store;
    var w, session, token := turn.pc.w, turn.pc.session, turn.pc.token;
    AwaitAbsenceFacts(world, s.rows, s.scans, s.proofs, turn.pc);
    if HonestAbsence(world, w.expectedTx.value, token, page) {
      SearchedNow(world, s, turn, page);
      var before := s.proofs[session];
      var coverage := Coverage(before.coverage, page.currentRound);
      var proof := before.(coverage := Some(coverage));
      var s1 := PutProof(s, session, proof);
      LoweredKeeps(world, s, session, page.currentRound);
      ProofPcSound(world, s1.rows, s1.scans, s1.proofs, w);
      if page.items != [] {
        ItemsConfirmed(world, w.expectedTx.value, token, page);
        ApplyConfirmedKeeps(world, s1, t, turn, page.items[0], at);
      } else if page.next.Some? {
        if page.next == proof.next || page.next.value in proof.seen {
          SuspendKeeps(world, s1, t, turn, FailingProof(w));
        } else {
          ProofContinuedKeeps(world, s, t, turn, page, nextAt);
        }
      } else {
        var s2 := ForgetProof(s1, w.id);
        ForgetProofKeeps(world, s1, w.id);
        ProofPcSound(world, s2.rows, s2.scans, s2.proofs, w);
        if coverage <= w.terms.value.lastValid {
          SuspendKeeps(world, s2, t, turn, FailingProof(w));
        } else {
          AbsenceProved(world, s.rows, s.proofs, w, session, token, page);
          RejectKeeps(world, s2, t, w.id);
        }
      }
    }
  }

  lemma ProofFailsKeeps(world: World, s: State, t: nat, turn: Turn, nextAt: int)
    requires Inv(world, s) && !turn.pc.AwaitActivation?
    ensures Inv(world, StepProofFails(world, s, t, turn, nextAt))
  {
    hide Inv, Apply, Finish, Without;
    var w := turn.pc.w;
    var s1 := ForgetProof(s, w.id);
    ForgetProofKeeps(world, s, w.id);
    DeferKeeps(world, s1, w.id, nextAt);
    FinishKeeps(world, Store(world, s1, Defer(w.id, nextAt)), t);
  }

  // ---- Settlement hooks --------------------------------------------------------------------

  /** An accepted candidate agrees with the terms the row was created with. */
  lemma CandidateAgrees(world: World, rows: Rows, id: Id, ev: Evidence)
    requires TableSound(world, rows) && CandidateAccepted(rows, RecordCandidate(id, ev))
    ensures id in rows
    ensures var r := rows[id]; r.terms.Some? ==> r.expectedTx == Some(ev.tx) && r.expectedNetwork == Some(ev.network)
  {
    assert RowSound(world, rows[id]);
  }

  lemma SettledKeeps(world: World, s: State, t: nat, id: Id, ev: Evidence)
    requires Inv(world, s)
    ensures Inv(world, StepSettled(world, s, t, id, ev))
  {
    hide ListedSound, ScansSound, ScansOwned, ProofsSound, ProofsOwned, PagesSound, TurnsSound, TableSound, Apply, CandidateAccepted;
    var op := RecordCandidate(id, ev);
    if CandidateAccepted(s.rows, op) {
      var s1 := Store(world, s, op);
      CandidateAgrees(world, s.rows, id, ev);
      StoreKeeps(world, s, op);
      CandidateFollows(world, s.rows, s1.rows, s1.scans, s1.proofs, id, ev);
      TurnsPut(world, s1.rows, s1.scans, s1.proofs, s1.turns, t, Turn(0, AwaitActivation(id, ev), 0, 0));
      TurnsReplaced(world, s1, s1.(turns := s1.turns[t := Turn(0, AwaitActivation(id, ev), 0, 0)]));
    }
  }

  lemma CandidateFollows(world: World, rows: Rows, later: Rows, scans: map<nat, ScanSession>, proofs: map<nat, ProofSession>,
                         id: Id, ev: Evidence)
    requires id in rows && TableEvolves(rows, later)
    requires rows[id].terms.Some? ==> rows[id].expectedTx == Some(ev.tx) && rows[id].expectedNetwork == Some(ev.network)
    ensures PcSound(world, later, scans, proofs, AwaitActivation(id, ev))
  {
  }

  lemma ActivationKeeps(world: World, s: State, t: nat, turn: Turn, found: Option<Transfer>, at: int)
    requires Honest(world) && Inv(world, s) && turn.pc.AwaitActivation? && PcSound(world, s.rows, s.scans, s.proofs, turn.pc)
    ensures Inv(world, StepActivation(world, s, t, turn, found, at))
  {
    hide Inv, Apply, Finish, MeetsTerms, NeverPaid, ChainSound, PartitionSound;
    var id, ev := turn.pc.watch, turn.pc.ev;
    ActivationFacts(world, s.rows, s.scans, s.proofs, turn.pc);
    if HonestLookup(world, ev.tx, found) {
      if found.None? {
        FinishKeeps(world, s, t);
      } else if MeetsTerms(s.rows[id], found.value) {
        MeetsHasTerms(s.rows[id], found.value);
        ActivateKeeps(world, s, t, id, ev, found.value, at);
      } else {
        MismatchedEvidence(world, s.rows[id], ev, found.value);
        RejectKeeps(world, s, t, id);
      }
    }
  }

  lemma ActivationFacts(world: World, rows: Rows, scans: map<nat, ScanSession>, proofs: map<nat, ProofSession>, pc: Pc)
    requires pc.AwaitActivation? && PcSound(world, rows, scans, proofs, pc)
    ensures pc.watch in rows
    ensures rows[pc.watch].terms.Some? ==>
              rows[pc.watch].expectedTx == Some(pc.ev.tx) && rows[pc.watch].expectedNetwork == Some(pc.ev.network)
  {
  }

  lemma MeetsHasTerms(r: Row, t: Transfer)
    requires MeetsTerms(r, t)
    ensures r.terms.Some?
  {
  }

  lemma MismatchedEvidence(world: World, r: Row, ev: Evidence, found: Transfer)
    requires world.byId(ev.tx) == Some(found) && !MeetsTerms(r, found)
    requires r.terms.Some? ==> r.expectedTx == Some(ev.tx)
    ensures NeverPaid(world, r)
  {
    hide MeetsTerms;
  }
}
