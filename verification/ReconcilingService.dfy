/**
 Whole reconciliation turns on the interleaving machine: a turn that nothing interrupts does to its watch exactly
 what `Reconciled` says. Past the validity window, undisturbed turns settle a watch within as many turns as the
 search has pages: activated if the purchase was confirmed as agreed, rejected if it was not.
 */
module ReconcilingService {
  import opened Common
  import opened Watches
  import opened WatchLaws
  import opened WatchStore
  import opened ScanQueries
  import opened Chain
  import opened Lifecycle
  import opened RowSoundness
  import opened LifecycleSafety
  import opened LifecycleStatements
  import opened LifecycleTheorems
  import opened PollingTurns
  import opened PollingService
  import opened ReconcilingTurns

  // ---- Single events -----------------------------------------------------------------------

  lemma PrunesProof(world: World, s: State, id: Id)
    ensures Step(world, s, PruneProof(id)) == DropStaleProof(s, id, RowOf(s.rows, id))
  {
    hide DropStaleProof;
  }

  lemma Reconciles(world: World, s: State, t: nat, w: Row, at: int, nextAt: int)
    requires t !in s.turns && w in s.listed
    ensures Step(world, s, BeginReconcile(t, w, at, nextAt)) == StepBeginReconcile(world, s, t, w, at, nextAt)
  {
    hide StepBeginReconcile;
  }

  lemma LookupComes(world: World, s: State, t: nat, found: Option<Transfer>, at: int)
    ensures Step(world, s, LookupArrives(t, found, at))
         == if t in s.turns && s.turns[t].pc.AwaitLookup? then StepLookup(world, s, t, s.turns[t], found, at) else s
  {
    hide StepLookup;
  }

  lemma RoundComes(world: World, s: State, t: nat, round: nat, session: nat, nextAt: int)
    ensures Step(world, s, RoundArrives(t, round, session, nextAt))
         == if t in s.turns && s.turns[t].pc.AwaitRound? && session !in s.proofs
            then StepRound(world, s, t, s.turns[t], round, session, nextAt) else s
  {
    hide StepRound;
  }

  lemma SearchComes(world: World, s: State, t: nat, page: AbsencePage, at: int, nextAt: int)
    ensures Step(world, s, AbsenceArrives(t, page, at, nextAt))
         == if t in s.turns && s.turns[t].pc.AwaitAbsence? then StepAbsence(world, s, t, s.turns[t], page, at, nextAt) else s
  {
    hide StepAbsence;
  }

  lemma ErrorComes(world: World, s: State, t: nat, nextAt: int)
    requires t !in s.turns || s.turns[t].pc.FailingProof?
    ensures Step(world, s, ProofFails(t, nextAt)) == if t in s.turns then StepProofFails(world, s, t, s.turns[t], nextAt) else s
  {
    hide StepProofFails;
  }

  // ---- Phases ------------------------------------------------------------------------------

  lemma ProofSweepStarts(world: World, s: State, w: Row) returns (s2: State)
    requires w.id in s.rows && s.rows[w.id] == w && Waiting(s, w)
    ensures s2 == Step(world, Step(world, s, PruneProof(w.id)), List)
    ensures s2 == s.(proofOf := s2.proofOf, listed := s2.listed) && w in s2.listed
    ensures (w.id in s2.proofOf <==> Searching(s, w)) && (Searching(s, w) ==> s2.proofOf[w.id] == s.proofOf[w.id])
  {
    hide Step, DropStaleProof, Searching;
    PrunesProof(world, s, w.id);
    ProofPruned(s, w);
    var s1 := Step(world, s, PruneProof(w.id));
    Lists(world, s1, w.id);
    s2 := Step(world, s1, List);
  }

  function ChargedUnit(w: Row): Row { w.(used := w.used + 1) }

  /** The unit is charged, and the turn waits for the lookup or for the next page of its search. */
  lemma TurnStarts(world: World, s: State, w: Row, e: Errand) returns (s3: State)
    requires WellFormedTable(s.rows) && w.id in s.rows && s.rows[w.id] == w && Reconcilable(w, e.at)
    requires e.turn !in s.turns && w in s.listed
    ensures s3 == Step(world, s, BeginReconcile(e.turn, w, e.at, e.nextAt))
    ensures s3.rows == s.rows[w.id := ChargedUnit(w)] && WellFormedTable(s3.rows) && Waiting(s3, w) && s3.proofs == s.proofs
    ensures (w.id in s3.proofOf <==> Searching(s, w)) && (Searching(s, w) ==> s3.proofOf[w.id] == s.proofOf[w.id])
    ensures At(s3, e.turn, if Searching(s, w) then AwaitAbsence(w, s.proofOf[w.id], TokenSent(Search(s, w).next)) else AwaitLookup(w), 1)
  {
    hide Step, StepBeginReconcile, WellFormedTable, ClaimedReconcile, At;
    Reconciles(world, s, e.turn, w, e.at, e.nextAt);
    var s1 := ReconcileClaimed(world, s, e.turn, w, e.at, e.nextAt);
    ReconcileStarts(world, s1, e.turn, w, e.nextAt);
    s3 := Step(world, s, BeginReconcile(e.turn, w, e.at, e.nextAt));
  }

  /** The turn has reached its search page. */
  ghost predicate BeforeSearch(s: State, t: nat, w: Row, session: nat, search: ProofSession) {
    && t in s.turns && Asking(s, t, s.turns[t], w, session, TokenSent(search.next), search)
    && w.id in s.proofOf && s.proofOf[w.id] == session
  }

  /** Taking up a search: lookup and round are not asked for. */
  lemma SearchResumed(world: World, s: State, s3: State, w: Row, e: Errand)
    requires Searching(s, w) && s3.proofs == s.proofs && w.id in s3.proofOf && s3.proofOf[w.id] == s.proofOf[w.id] && w.expectedTx.Some?
    requires At(s3, e.turn, AwaitAbsence(w, s.proofOf[w.id], TokenSent(Search(s, w).next)), 1)
    ensures Step(world, Step(world, s3, LookupArrives(e.turn, e.found, e.at)), RoundArrives(e.turn, e.round, e.session, e.nextAt)) == s3
    ensures BeforeSearch(s3, e.turn, w, s.proofOf[w.id], Search(s, w))
  {
    hide Step, TokenSent;
    LookupComes(world, s3, e.turn, e.found, e.at);
    RoundComes(world, s3, e.turn, e.round, e.session, e.nextAt);
  }

  /** The lookup finds the transaction. */
  lemma FoundAtOnce(world: World, s3: State, w: Row, e: Errand)
    requires WellFormedTable(s3.rows) && Waiting(s3, w) && At(s3, e.turn, AwaitLookup(w), 1)
    requires e.found.Some? && HonestLookup(world, w.expectedTx.value, e.found)
    ensures var s5 := Step(world, Step(world, s3, LookupArrives(e.turn, e.found, e.at)), RoundArrives(e.turn, e.round, e.session, e.nextAt));
            && EndsAs(s3.rows, s5, e.turn, w, AfterConfirmed(world, s3, s3.rows[w.id], e.found.value, e), e.nextAt)
            && w.id !in s5.proofOf
  {
    hide Step, WellFormedTable, ApplyConfirmed, AfterConfirmed, HonestLookup;
    LookupComes(world, s3, e.turn, e.found, e.at);
    var s4 := Step(world, s3, LookupArrives(e.turn, e.found, e.at));
    ConfirmedSettles(world, s3, e.turn, s3.turns[e.turn], w, e.found.value, e);
    RoundComes(world, s4, e.turn, e.round, e.session, e.nextAt);
  }

  lemma RoundAwaited(world: World, s3: State, w: Row, e: Errand) returns (s4: State)
    requires Waiting(s3, w) && At(s3, e.turn, AwaitLookup(w), 1) && e.found.None?
    ensures s4 == Step(world, s3, LookupArrives(e.turn, e.found, e.at)) && SameSearches(s3, s4) && At(s4, e.turn, AwaitRound(w), 2)
  {
    hide Step, StepLookup;
    LookupComes(world, s3, e.turn, e.found, e.at);
    LookupAbsent(world, s3, e.turn, s3.turns[e.turn], w, e.at);
    s4 := Step(world, s3, LookupArrives(e.turn, e.found, e.at));
  }

  /** Nothing found, and the validity window is not over. */
  lemma TooEarly(world: World, s3: State, w: Row, e: Errand)
    requires WellFormedTable(s3.rows) && Waiting(s3, w) && At(s3, e.turn, AwaitLookup(w), 1) && w.id !in s3.proofOf && e.session !in s3.proofs
    requires e.found.None? && e.round <= w.terms.value.lastValid
    ensures var s5 := Step(world, Step(world, s3, LookupArrives(e.turn, e.found, e.at)), RoundArrives(e.turn, e.round, e.session, e.nextAt));
            && EndsAs(s3.rows, s5, e.turn, w, Deferred(s3.rows[w.id], e.nextAt), e.nextAt)
            && w.id !in s5.proofOf
  {
    hide Step, WellFormedTable, StepRound;
    var s4 := RoundAwaited(world, s3, w, e);
    RoundComes(world, s4, e.turn, e.round, e.session, e.nextAt);
    RoundTooEarly(world, s4, e.turn, s4.turns[e.turn], w, e.round, e.session, e.nextAt);
  }

  /** Nothing found, and the validity window is over: a search begins. */
  lemma SearchBegun(world: World, s3: State, w: Row, e: Errand)
    requires Waiting(s3, w) && At(s3, e.turn, AwaitLookup(w), 1) && e.session !in s3.proofs
    requires e.found.None? && e.round > w.terms.value.lastValid
    ensures var s5 := Step(world, Step(world, s3, LookupArrives(e.turn, e.found, e.at)), RoundArrives(e.turn, e.round, e.session, e.nextAt));
            && s5.rows == s3.rows
            && BeforeSearch(s5, e.turn, w, e.session, ProofSession(w.id, w.expectedTx.value, None, {}, None, 0))
  {
    hide Step, StepRound;
    var s4 := RoundAwaited(world, s3, w, e);
    RoundComes(world, s4, e.turn, e.round, e.session, e.nextAt);
    RoundOpensSearch(world, s4, e.turn, s4.turns[e.turn], w, e.round, e.session, e.nextAt);
  }

  /** The sweep's catch block: an error defers the watch and ends its search. */
  lemma ErrorRecorded(world: World, rows: Rows, s: State, t: nat, w: Row, r: Row, nextAt: int) returns (later: State)
    requires WellFormedTable(rows) && w.id in rows && Unsettled(rows[w.id]) && !rows[w.id].terminal && EndsAs(rows, s, t, w, r, nextAt)
    ensures later == Step(world, s, ProofFails(t, nextAt)) && t !in later.turns && later.rows == rows[w.id := r]
    ensures t !in s.turns ==> later == s
    ensures w.id !in s.proofOf || t in s.turns ==> w.id !in later.proofOf
  {
    hide Step, WellFormedTable, Apply;
    ErrorComes(world, s, t, nextAt);
    if t in s.turns { UpdateAdmitted(world.cfg, s.rows, Defer(w.id, nextAt)); }
    later := Step(world, s, ProofFails(t, nextAt));
  }

  lemma NoSearchPage(world: World, rows: Rows, s: State, t: nat, w: Row, r: Row, e: Errand)
    requires w.id in rows && EndsAs(rows, s, t, w, r, e.nextAt)
    ensures Step(world, s, AbsenceArrives(t, e.page, e.at, e.nextAt)) == s
  {
    hide Step;
    SearchComes(world, s, t, e.page, e.at, e.nextAt);
  }

  /** The machine after the turn's last event. */
  ghost predicate TurnOver(world: World, s: State, w: Row, e: Errand, later: State)
    requires w.terms.Some? && w.expectedTx.Some? && w.id in s.rows
  {
    && e.turn !in later.turns && later.rows == s.rows[w.id := Reconciled(world, s, w, e)]
    && (if SearchGoesOn(s, w, e)
        then w.id in later.proofOf && later.proofOf[w.id] in later.proofs && later.proofs[later.proofOf[w.id]] == OnePageOn(Search(s, w), e.page)
        else w.id !in later.proofOf)
  }

  lemma SameTaken(s: State, s3: State, w: Row, tx: string)
    requires w.id in s.rows && s3.rows == s.rows[w.id := ChargedUnit(w)]
    ensures PaymentTaken(s3.rows, w.id, tx) == PaymentTaken(s.rows, w.id, tx)
  {
    assert forall other | other in s.rows && other != w.id :: s3.rows[other] == s.rows[other];
  }

  lemma SameConfirmed(world: World, s: State, s3: State, w: Row, t: Transfer, e: Errand)
    requires w.terms.Some? && w.id in s.rows && s3.rows == s.rows[w.id := ChargedUnit(w)]
    ensures AfterConfirmed(world, s3, ChargedUnit(w), t, e) == AfterConfirmed(world, s, ChargedUnit(w), t, e)
  {
    SameTaken(s, s3, w, t.tx);
    hide PaymentTaken, ActivatedRow;
  }

  lemma OverWithoutSearch(world: World, s: State, s3: State, w: Row, e: Errand, s5: State, r: Row) returns (s7: State)
    requires WellFormedTable(s3.rows) && Waiting(s3, w) && w.id in s.rows && s3.rows == s.rows[w.id := ChargedUnit(w)]
    requires EndsAs(s3.rows, s5, e.turn, w, r, e.nextAt) && w.id !in s5.proofOf
    requires !Searches(s, w, e) && r == Reconciled(world, s, w, e)
    ensures s7 == Step(world, Step(world, s5, AbsenceArrives(e.turn, e.page, e.at, e.nextAt)), ProofFails(e.turn, e.nextAt))
    ensures TurnOver(world, s, w, e, s7)
  {
    hide Step, WellFormedTable, Reconciled, EndsAs, Searching;
    NoSearchPage(world, s3.rows, s5, e.turn, w, r, e);
    s7 := ErrorRecorded(world, s3.rows, s5, e.turn, w, r, e.nextAt);
  }

  lemma OverAfterSearch(world: World, s: State, s3: State, w: Row, e: Errand, s5: State, session: nat) returns (s7: State)
    requires WellFormedTable(s3.rows) && Waiting(s3, w) && w.id in s.rows && s3.rows == s.rows[w.id := ChargedUnit(w)]
    requires s5.rows == s3.rows && BeforeSearch(s5, e.turn, w, session, Search(s, w)) && Searches(s, w, e) && HonestErrand(world, s, w, e)
    ensures s7 == Step(world, Step(world, s5, AbsenceArrives(e.turn, e.page, e.at, e.nextAt)), ProofFails(e.turn, e.nextAt))
    ensures TurnOver(world, s, w, e, s7)
  {
    hide Step, WellFormedTable, StepAbsence, EndsAs, Searches, HonestLookup, HonestAbsence, AfterPage, Repeats, Search, OnePageOn, TokenSent;
    var search := Search(s, w);
    SearchComes(world, s5, e.turn, e.page, e.at, e.nextAt);
    var s6 := Step(world, s5, AbsenceArrives(e.turn, e.page, e.at, e.nextAt));
    PageSearched(world, s5, e.turn, s5.turns[e.turn], w, session, TokenSent(search.next), search, e);
    SameAfterPage(world, s, s5, w, search, e);
    s7 := ErrorRecorded(world, s5.rows, s6, e.turn, w, AfterPage(world, s, ChargedUnit(w), search, e), e.nextAt);
  }

  lemma SameAfterPage(world: World, s: State, s5: State, w: Row, search: ProofSession, e: Errand)
    requires w.terms.Some? && w.id in s.rows && s5.rows == s.rows[w.id := ChargedUnit(w)]
    ensures AfterPage(world, s5, s5.rows[w.id], search, e) == AfterPage(world, s, ChargedUnit(w), search, e)
  {
    hide AfterConfirmed, Lowest;
    if e.page.items != [] { SameConfirmed(world, s, s5, w, e.page.items[0], e); }
  }

  // ---- The whole turn ----------------------------------------------------------------------

  /** From the listing to the turn's end. */
  lemma ReconcileDone(world: World, s: State, w: Row, e: Errand) returns (s7: State)
    requires WellFormedTable(s.rows) && w.id in s.rows && s.rows[w.id] == w && Reconcilable(w, e.at) && w in s.listed
    requires e.turn !in s.turns && e.session !in s.proofs && HonestErrand(world, s, w, e)
    ensures var s3 := Step(world, s, BeginReconcile(e.turn, w, e.at, e.nextAt));
            var s5 := Step(world, Step(world, s3, LookupArrives(e.turn, e.found, e.at)), RoundArrives(e.turn, e.round, e.session, e.nextAt));
            s7 == Step(world, Step(world, s5, AbsenceArrives(e.turn, e.page, e.at, e.nextAt)), ProofFails(e.turn, e.nextAt))
    ensures TurnOver(world, s, w, e, s7)
  {
    hide Step, WellFormedTable, At, BeforeSearch, EndsAs, TurnOver, HonestErrand, AfterConfirmed, AfterPage, TokenSent;
    var s3 := TurnStarts(world, s, w, e);
    var s5 := Step(world, Step(world, s3, LookupArrives(e.turn, e.found, e.at)), RoundArrives(e.turn, e.round, e.session, e.nextAt));
    HonestBoth(world, s, w, e);
    if Searching(s, w) {
      SearchResumed(world, s, s3, w, e);
      s7 := OverAfterSearch(world, s, s3, w, e, s5, s.proofOf[w.id]);
    } else if e.found.Some? {
      FoundAtOnce(world, s3, w, e);
      SameConfirmed(world, s, s3, w, e.found.value, e);
      s7 := OverWithoutSearch(world, s, s3, w, e, s5, AfterConfirmed(world, s, ChargedUnit(w), e.found.value, e));
    } else if e.round <= w.terms.value.lastValid {
      TooEarly(world, s3, w, e);
      s7 := OverWithoutSearch(world, s, s3, w, e, s5, Deferred(ChargedUnit(w), e.nextAt));
    } else {
      SearchBegun(world, s3, w, e);
      s7 := OverAfterSearch(world, s, s3, w, e, s5, e.session);
    }
  }

  lemma HonestBoth(world: World, s: State, w: Row, e: Errand)
    requires w.expectedTx.Some? && HonestErrand(world, s, w, e)
    ensures HonestLookup(world, w.expectedTx.value, e.found)
  {
    hide HonestAbsence, Search;
  }

  /** Pruning and listing change nothing about what the turn will find. */
  lemma SweptAlike(world: World, s: State, s2: State, w: Row, e: Errand)
    requires w.terms.Some? && w.expectedTx.Some? && s2 == s.(proofOf := s2.proofOf, listed := s2.listed)
    requires (w.id in s2.proofOf <==> Searching(s, w)) && (Searching(s, w) ==> s2.proofOf[w.id] == s.proofOf[w.id])
    ensures Searching(s2, w) == Searching(s, w) && Search(s2, w) == Search(s, w)
    ensures Reconciled(world, s2, w, e) == Reconciled(world, s, w, e) && SearchGoesOn(s2, w, e) == SearchGoesOn(s, w, e)
    ensures HonestErrand(world, s2, w, e) == HonestErrand(world, s, w, e)
  {
    hide HonestAbsence, HonestLookup, PaymentTaken, AsAgreed, Lowest, Repeats;
    assert Searching(s2, w) == Searching(s, w);
  }

  /** A turn that ends between two pages only defers the watch. */
  lemma GoesOnDeferred(world: World, s: State, w: Row, e: Errand)
    requires w.terms.Some? && w.expectedTx.Some? && SearchGoesOn(s, w, e)
    ensures Reconciled(world, s, w, e) == Deferred(ChargedUnit(w), e.nextAt)
  {
    hide AfterConfirmed, Lowest, Repeats, Searching;
  }

  /** A search that goes on is the watch's own. */
  lemma SearchIsOwn(s: State, w: Row)
    requires w.expectedTx.Some?
    ensures Some(Search(s, w).tx) == w.expectedTx
  {
  }

  lemma ProofSweepEnds(world: World, s: State, w: Row, e: Errand, s7: State) returns (s8: State)
    requires w.id in s.rows && s.rows[w.id] == w && Waiting(s, w) && TurnOver(world, s, w, e, s7)
    ensures s8 == Step(world, s7, PruneProof(w.id)) && s8 == s7.(proofOf := s8.proofOf)
    ensures TurnOver(world, s, w, e, s8)
  {
    hide Step, Reconciled, Search, OnePageOn, DropStaleProof, Searches, Repeats;
    PrunesProof(world, s7, w.id);
    s8 := Step(world, s7, PruneProof(w.id));
    SearchIsOwn(s, w);
    if SearchGoesOn(s, w, e) {
      GoesOnDeferred(world, s, w, e);
      KeptSearch(s7, w.id, Search(s, w), e);
    } else {
      NothingToPrune(s7, w.id);
    }
  }

  lemma KeptSearch(s: State, id: Id, search: ProofSession, e: Errand)
    requires id in s.rows && Unsettled(s.rows[id]) && !s.rows[id].terminal && s.rows[id].expectedTx == Some(search.tx) && e.page.next.Some?
    requires id in s.proofOf && s.proofOf[id] in s.proofs && s.proofs[s.proofOf[id]] == OnePageOn(search, e.page)
    ensures DropStaleProof(s, id, RowOf(s.rows, id)) == s
  {
  }

  lemma NothingToPrune(s: State, id: Id)
    requires id !in s.proofOf
    ensures DropStaleProof(s, id, RowOf(s.rows, id)) == s
  {
  }

  /**
   One reconciliation turn, left alone. It charges a unit. Without a search under way it looks the purchase up and,
   if nothing is found, compares the current round with the last valid one: at or before it the watch is deferred and
   no search begins, past it the search of the watch's own transaction begins with its first page. A confirmed
   transfer activates the watch if it is what was agreed and rejects it if not. A search page without one rejects the
   watch if it is the last and every page so far was reported past the last valid round, and otherwise defers it,
   one page further unless the continuation repeats.
   */
  lemma TurnReconciles(world: World, s: State, w: Row, e: Errand)
    requires Honest(world) && Inv(world, s) && w.id in s.rows && s.rows[w.id] == w && Reconcilable(w, e.at)
    requires e.turn !in s.turns && e.session !in s.proofs && HonestErrand(world, s, w, e)
    ensures var later := Lifecycle.Run(world, s, Steps(w, e));
            && Inv(world, later) && e.turn !in later.turns && later.rows == s.rows[w.id := Reconciled(world, s, w, e)]
            && (if SearchGoesOn(s, w, e)
                then w.id in later.proofOf && later.proofOf[w.id] in later.proofs && later.proofs[later.proofOf[w.id]] == OnePageOn(Search(s, w), e.page)
                else w.id !in later.proofOf)
  {
    hide Step, Honest, Inv, Reconciled, SearchGoesOn, Searching, Search, HonestErrand, Lifecycle.Run, OnePageOn, WellFormedTable;
    TableHolds(world, s);
    RunStaysSound(world, s, Steps(w, e));
    RunEight(world, s, Steps(w, e));
    var s2 := ProofSweepStarts(world, s, w);
    SweptAlike(world, s, s2, w, e);
    var s7 := ReconcileDone(world, s2, w, e);
    var s8 := ProofSweepEnds(world, s2, w, e, s7);
  }

  /**
   In particular: nothing confirmed, the current round past the last valid one, and a search whose only page is empty
   and was reported past it too. Then this turn rejects the watch for good; at or before the last valid round it is
   deferred instead, and no search begins.
   */
  lemma NeverPaidRejected(world: World, s: State, w: Row, e: Errand)
    requires Honest(world) && Inv(world, s) && w.id in s.rows && s.rows[w.id] == w && Reconcilable(w, e.at)
    requires e.turn !in s.turns && e.session !in s.proofs && HonestErrand(world, s, w, e)
    requires !Searching(s, w) && e.found.None?
    requires e.page.items == [] && e.page.next.None? && e.page.currentRound > w.terms.value.lastValid
    ensures var later := Lifecycle.Run(world, s, Steps(w, e));
            && w.id !in later.proofOf
            && later.rows == s.rows[w.id := if e.round > w.terms.value.lastValid then Rejected(w.(used := w.used + 1))
                                            else Deferred(w.(used := w.used + 1), e.nextAt)]
  {
    hide Lifecycle.Run, Honest, Inv, HonestErrand;
    TurnReconciles(world, s, w, e);
  }

  // ---- A turn that is not due --------------------------------------------------------------

  lemma ReconcileRefused(world: World, s: State, t: nat, w: Row, at: int, nextAt: int)
    requires WellFormedTable(s.rows) && t !in s.turns && w in s.listed && w.expectedTx.Some? && w.expectedTx.value != ""
    requires w.id in s.rows ==> s.rows[w.id].budget.None? || !PlanHolds(s.rows[w.id], Reconciliation(w.expectedTx.value, w.attempts), at)
    ensures var later := Step(world, s, BeginReconcile(t, w, at, nextAt));
            && later.rows == s.rows && later.turns == s.turns && later.proofs == s.proofs && later.ledger == s.ledger
            && later.proofOf == if KeepsSearch(s, w.id) then s.proofOf else s.proofOf - {w.id}
  {
    hide Step, WellFormedTable, Apply, OutcomeOf, PlanHolds, ProofFits, KeepsSearch, DropStaleProof;
    Reconciles(world, s, t, w, at, nextAt);
    SearchPrunedExactly(s, w.id);
    UpdateAdmitted(world.cfg, s.rows, Claim(w.id, Reconciliation(w.expectedTx.value, w.attempts), at));
    if w.id in s.rows { OutcomeMeans(s.rows[w.id], Reconciliation(w.expectedTx.value, w.attempts), at); }
  }

  lemma ReconcileExhausts(world: World, s: State, t: nat, w: Row, at: int, nextAt: int)
    requires WellFormedTable(s.rows) && t !in s.turns && w in s.listed && w.expectedTx.Some? && w.expectedTx.value != "" && w.id in s.rows
    requires var r := s.rows[w.id];
             r.budget.Some? && r.used >= r.budget.value && PlanHolds(r, Reconciliation(w.expectedTx.value, w.attempts), at)
    ensures var later := Step(world, s, BeginReconcile(t, w, at, nextAt));
            && later.rows == s.rows[w.id := s.rows[w.id].(state := Indeterminate, reason := Some(WorkBudgetExhausted), terminal := true)]
            && later.turns == s.turns && w.id !in later.proofOf
  {
    hide Step, WellFormedTable, Apply, OutcomeOf, PlanHolds;
    Reconciles(world, s, t, w, at, nextAt);
    UpdateAdmitted(world.cfg, s.rows, Claim(w.id, Reconciliation(w.expectedTx.value, w.attempts), at));
    OutcomeMeans(s.rows[w.id], Reconciliation(w.expectedTx.value, w.attempts), at);
  }

  lemma TermlessClaimed(world: World, s: State, t: nat, w: Row, at: int, nextAt: int) returns (s1: State)
    requires WellFormedTable(s.rows) && w.id in s.rows && s.rows[w.id] == w && Unsettled(w) && !w.terminal
    requires w.expectedTx.Some? && w.expectedTx.value != ""
    requires (w.nextAttemptAt.Some? ==> w.nextAttemptAt.value <= at) && w.budget.Some? && w.used < w.budget.value
    ensures StepBeginReconcile(world, s, t, w, at, nextAt) == ClaimedReconcile(world, s1, t, w, nextAt)
    ensures s1 == s.(rows := s.rows[w.id := w.(used := w.used + 1)]) && WellFormedTable(s1.rows)
  {
    hide Apply, WellFormedTable, ClaimedReconcile;
    var claim := Claim(w.id, Reconciliation(w.expectedTx.value, w.attempts), at);
    s1 := Store(world, s, claim);
    UpdateAdmitted(world.cfg, s.rows, claim);
    ApplyKeeps(world.cfg, s.rows, claim);
  }

  lemma TermlessGivenUp(world: World, s: State, t: nat, w: Row, nextAt: int)
    requires WellFormedTable(s.rows) && w.id in s.rows && Unsettled(s.rows[w.id]) && !s.rows[w.id].terminal
    requires w.evidenceVersion != 1 || w.expectedTx.None? || w.expectedNetwork.None? || w.expectedPayer.None? || w.terms.None?
    ensures var later := ClaimedReconcile(world, s, t, w, nextAt);
            && later.rows == s.rows[w.id := Deferred(s.rows[w.id], nextAt)]
            && later.turns == s.turns && later.proofs == s.proofs && later.proofOf == s.proofOf
  {
    hide Apply, WellFormedTable, Ask, RequestAbsence, DropStaleProof;
    UpdateAdmitted(world.cfg, s.rows, Defer(w.id, nextAt));
  }

  /** A watch sold without terms can only be charged and deferred: no request is made for it, and no proof is ever begun. */
  lemma TermlessDeferred(world: World, s: State, t: nat, w: Row, at: int, nextAt: int)
    requires WellFormedTable(s.rows) && t !in s.turns && w in s.listed && w.expectedTx.Some? && w.expectedTx.value != ""
    requires w.id in s.rows && s.rows[w.id] == w && Unsettled(w) && !w.terminal
    requires w.evidenceVersion != 1 || w.expectedNetwork.None? || w.expectedPayer.None? || w.terms.None?
    requires (w.nextAttemptAt.Some? ==> w.nextAttemptAt.value <= at) && w.budget.Some? && w.used < w.budget.value
    ensures var later := Step(world, s, BeginReconcile(t, w, at, nextAt));
            && later.rows == s.rows[w.id := Deferred(w.(used := w.used + 1), nextAt)]
            && later.turns == s.turns && later.proofs == s.proofs && later.proofOf == s.proofOf
  {
    hide Step, StepBeginReconcile, ClaimedReconcile, WellFormedTable, Deferred;
    Reconciles(world, s, t, w, at, nextAt);
    var s1 := TermlessClaimed(world, s, t, w, at, nextAt);
    TermlessGivenUp(world, s1, t, w, nextAt);
  }
}
