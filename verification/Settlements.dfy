/**
 Liveness of the settlement, with a bound: past the validity window, undisturbed turns that get the pages of the
 search settle a watch, and settle it rightly, within as many turns as the search has pages left.
 */
module Settlements {
  import opened Common
  import opened Watches
  import opened WatchLaws
  import opened ScanQueries
  import opened Chain
  import opened Lifecycle
  import opened LifecycleSafety
  import opened LifecycleTheorems
  import opened PollingService
  import opened ReconcilingTurns
  import opened ReconcilingService

  /** The search stands before page k: everything before it was empty, and reported past the last valid round. */
  ghost predicate StandsAt(world: World, search: ProofSession, x: string, lastValid: nat, k: nat) {
    && search.tx == x && search.consumed == k && k < |world.found(x)|
    && search.next == FoundToken(world, x, k) && search.seen == SeenFoundTokens(world, x, k)
    && (search.coverage.Some? ==> search.coverage.value > lastValid)
    && (forall j: nat | j < k :: world.found(x)[j] == [])
  }

  /** A turn past the validity window that gets the search page it asks for. */
  ghost predicate HelpfulErrand(world: World, s: State, w: Row, e: Errand)
    requires w.terms.Some? && w.expectedTx.Some?
  {
    var x, k := w.expectedTx.value, Search(s, w).consumed;
    && e.turn !in s.turns && e.session !in s.proofs && (w.nextAttemptAt.Some? ==> w.nextAttemptAt.value <= e.at)
    && HonestErrand(world, s, w, e) && e.round > w.terms.value.lastValid && e.page.currentRound > w.terms.value.lastValid
    && k < |world.found(x)| && e.page.items == world.found(x)[k] && e.page.next == NextFoundToken(world, x, k)
  }

  /** The purchase was confirmed, and as agreed. */
  ghost predicate Agreed(world: World, w: Row)
    requires w.terms.Some? && w.expectedTx.Some?
  {
    world.byId(w.expectedTx.value).Some? && AsAgreed(world, w, world.byId(w.expectedTx.value).value)
  }

  lemma FreshSearchStands(world: World, w: Row)
    requires Honest(world) && w.expectedTx.Some? && w.terms.Some?
    ensures StandsAt(world, ProofSession(w.id, w.expectedTx.value, None, {}, None, 0), w.expectedTx.value, w.terms.value.lastValid, 0)
  {
    hide ChainSound, PartitionSound;
    assert SeenFoundTokens(world, w.expectedTx.value, 0) == {};
  }

  /** What a confirmed transfer leads to is right, and nothing else is confirmed. */
  lemma ConfirmedIsRight(world: World, s: State, w: Row, t: Transfer, e: Errand)
    requires w.terms.Some? && w.expectedTx.Some? && world.byId(w.expectedTx.value) == Some(t) && !PaymentTaken(s.rows, w.id, t.tx)
    ensures AfterConfirmed(world, s, w, t, e) == if Agreed(world, w) then ActivatedRow(world, w, t, e.at) else Rejected(w)
  {
    hide PaymentTaken, ActivatedRow;
  }

  lemma TokenMoves(world: World, x: string, k: nat)
    requires Honest(world) && k + 1 < |world.found(x)|
    ensures NextFoundToken(world, x, k) == FoundToken(world, x, k + 1) != None
    ensures FoundToken(world, x, k + 1) != FoundToken(world, x, k) && FoundToken(world, x, k + 1).value !in SeenFoundTokens(world, x, k)
    ensures SeenFoundTokens(world, x, k + 1) == SeenFoundTokens(world, x, k) + {FoundToken(world, x, k + 1).value}
  {
    hide ChainSound, PartitionSound;
  }

  /** A page without the transaction, before the last, moves the search on by one page. */
  lemma SearchMoves(world: World, search: ProofSession, x: string, lastValid: nat, k: nat, page: AbsencePage)
    requires Honest(world) && StandsAt(world, search, x, lastValid, k) && k + 1 < |world.found(x)|
    requires page.items == [] == world.found(x)[k] && page.next == NextFoundToken(world, x, k) && page.currentRound > lastValid
    ensures page.next.Some? && !Repeats(search, page.next.value) && StandsAt(world, OnePageOn(search, page), x, lastValid, k + 1)
  {
    TokenMoves(world, x, k);
    hide Honest, FoundToken, NextFoundToken, SeenFoundTokens;
  }

  /** The last page without it: the transaction is confirmed nowhere. */
  lemma NowhereConfirmed(world: World, x: string)
    requires Honest(world) && forall j: nat | j < |world.found(x)| :: world.found(x)[j] == []
    ensures world.byId(x).None?
  {
    hide ChainSound, PartitionSound;
  }

  /** The answers name only the confirmed transfer. */
  lemma AnswersConfirmed(world: World, s: State, w: Row, e: Errand)
    requires w.expectedTx.Some? && HonestErrand(world, s, w, e)
    ensures e.found.Some? ==> world.byId(w.expectedTx.value) == e.found
    ensures e.page.items != [] ==> world.byId(w.expectedTx.value) == Some(e.page.items[0])
  {
    hide Search;
  }

  /** The settlement is decided, and rightly: active by the confirmed purchase, or rejected for good. */
  ghost predicate Decided(world: World, w: Row, r: Row)
    requires w.terms.Some? && w.expectedTx.Some?
  {
    if Agreed(world, w)
    then r.state.Active? && r.service.Some? && r.service.value.tx == w.expectedTx.value
         && r.activationRound == Some(world.byId(w.expectedTx.value).value.round) == r.scanAfter
    else r.state.SettlementUnknown? && r.terminal
  }

  /** What one helpful turn makes of the row. */
  lemma RowSettles(world: World, s: State, w: Row, e: Errand, k: nat)
    requires Honest(world) && w.terms.Some? && w.expectedTx.Some? && HelpfulErrand(world, s, w, e)
    requires StandsAt(world, Search(s, w), w.expectedTx.value, w.terms.value.lastValid, k) && !PaymentTaken(s.rows, w.id, w.expectedTx.value)
    ensures var r, x := Reconciled(world, s, w, e), w.expectedTx.value;
            || Decided(world, w, r)
            || (&& r == Deferred(ChargedUnit(w), e.nextAt) && SearchGoesOn(s, w, e) && k + 1 < |world.found(x)|
                && StandsAt(world, OnePageOn(Search(s, w), e.page), x, w.terms.value.lastValid, k + 1))
  {
    hide Honest, HonestErrand, PaymentTaken, StandsAt, AsAgreed, AfterConfirmed, Repeats, Search, Searching, SeenFoundTokens, FoundToken;
    var x, charged := w.expectedTx.value, ChargedUnit(w);
    AnswersConfirmed(world, s, w, e);
    Standing(world, Search(s, w), x, w.terms.value.lastValid, k);
    ChargedAgrees(world, w);
    if !Searches(s, w, e) {
      ConfirmedDecides(world, s, w, e.found.value, e);
    } else if e.page.items != [] {
      ConfirmedDecides(world, s, w, e.page.items[0], e);
    } else if k + 1 < |world.found(x)| {
      SearchMoves(world, Search(s, w), x, w.terms.value.lastValid, k, e.page);
      GoesOnDeferred(world, s, w, e);
    } else {
      NowhereConfirmed(world, x);
    }
  }

  /** A search that stands here has seen nothing, and its lowest round is past the last valid one. */
  lemma Standing(world: World, search: ProofSession, x: string, lastValid: nat, k: nat)
    requires StandsAt(world, search, x, lastValid, k)
    ensures search.consumed == k < |world.found(x)| && (forall j: nat | j < k :: world.found(x)[j] == [])
    ensures search.coverage.Some? ==> search.coverage.value > lastValid
  {
  }

  lemma ChargedAgrees(world: World, w: Row)
    requires w.terms.Some? && w.expectedTx.Some?
    ensures Agreed(world, ChargedUnit(w)) == Agreed(world, w)
    ensures forall r :: Decided(world, ChargedUnit(w), r) == Decided(world, w, r)
  {
  }

  lemma ConfirmedDecides(world: World, s: State, w: Row, t: Transfer, e: Errand)
    requires Honest(world) && w.terms.Some? && w.expectedTx.Some? && world.byId(w.expectedTx.value) == Some(t)
    requires !PaymentTaken(s.rows, w.id, w.expectedTx.value)
    ensures Decided(world, w, AfterConfirmed(world, s, ChargedUnit(w), t, e))
  {
    hide ChainSound, PartitionSound, PaymentTaken, AsAgreed;
    ConfirmedIsRight(world, s, ChargedUnit(w), t, e);
    ChargedAgrees(world, w);
  }

  /** Turns on one watch, one after another, until its settlement is decided. */
  ghost function Reconciliation(world: World, s: State, id: Id, errands: seq<Errand>): State
    decreases |errands|
  {
    if errands == [] || id !in s.rows || !Unsettled(s.rows[id]) || s.rows[id].terminal then s
    else Reconciliation(world, Lifecycle.Run(world, s, Steps(s.rows[id], errands[0])), id, errands[1..])
  }

  ghost predicate AllHelp(world: World, s: State, id: Id, errands: seq<Errand>)
    decreases |errands|
  {
    errands != [] && id in s.rows && Unsettled(s.rows[id]) && !s.rows[id].terminal && s.rows[id].terms.Some? && s.rows[id].expectedTx.Some? ==>
      && HelpfulErrand(world, s, s.rows[id], errands[0])
      && AllHelp(world, Lifecycle.Run(world, s, Steps(s.rows[id], errands[0])), id, errands[1..])
  }

  lemma HelpfulIsDue(world: World, s: State, w: Row, e: Errand)
    requires Unsettled(w) && !w.terminal && HasTerms(w) && w.expectedTx.value != "" && HelpfulErrand(world, s, w, e)
    requires w.budget.Some? && w.used < w.budget.value
    ensures Reconcilable(w, e.at) && e.turn !in s.turns && e.session !in s.proofs && HonestErrand(world, s, w, e)
  {
    hide HonestErrand;
  }

  lemma StillFree(s: State, later: State, id: Id, r: Row, x: string)
    requires !PaymentTaken(s.rows, id, x) && later.rows == s.rows[id := r]
    ensures !PaymentTaken(later.rows, id, x)
  {
  }

  lemma SearchTaken(later: State, r: Row, search: ProofSession)
    requires r.id in later.proofOf && later.proofOf[r.id] in later.proofs && later.proofs[later.proofOf[r.id]] == search
    requires r.expectedTx == Some(search.tx)
    ensures Search(later, r) == search
  {
  }

  /**
   Past the validity window, undisturbed turns that get the pages they ask for decide a settlement within as many
   turns as the search has pages left, budget allowing, and decide it rightly: the watch is active, from the
   confirmed round, if and only if the purchase was confirmed as agreed; otherwise it is rejected for good.
   */
  lemma {:induction false} SettledRightlyInTime(world: World, s: State, id: Id, errands: seq<Errand>, k: nat)
    requires Honest(world) && Inv(world, s) && id in s.rows && s.rows[id].id == id
    requires Unsettled(s.rows[id]) && !s.rows[id].terminal && HasTerms(s.rows[id]) && s.rows[id].expectedTx.value != ""
    requires s.rows[id].budget.Some? && s.rows[id].used + |errands| <= s.rows[id].budget.value
    requires AllHelp(world, s, id, errands) && !PaymentTaken(s.rows, id, s.rows[id].expectedTx.value)
    requires StandsAt(world, Search(s, s.rows[id]), s.rows[id].expectedTx.value, s.rows[id].terms.value.lastValid, k)
    requires |errands| >= |world.found(s.rows[id].expectedTx.value)| - k
    ensures var later := Reconciliation(world, s, id, errands);
            id in later.rows && Decided(world, s.rows[id], later.rows[id])
    decreases |errands|
  {
    hide Honest, Inv, Lifecycle.Run, Steps, HelpfulErrand, HonestErrand, StandsAt, Search, PaymentTaken, AsAgreed, Searches, Repeats;
    hide Reconciled, OnePageOn;
    var w := s.rows[id];
    Standing(world, Search(s, w), w.expectedTx.value, w.terms.value.lastValid, k);
    HelpfulIsDue(world, s, w, errands[0]);
    TurnReconciles(world, s, w, errands[0]);
    RowSettles(world, s, w, errands[0], k);
    var next := Lifecycle.Run(world, s, Steps(w, errands[0]));
    var r := next.rows[id];
    if Decided(world, w, r) {
      assert Reconciliation(world, next, id, errands[1..]) == next;
    } else {
      StillFree(s, next, id, r, w.expectedTx.value);
      SearchOwn(s, w, errands[0]);
      SearchTaken(next, r, OnePageOn(Search(s, w), errands[0].page));
      SettledRightlyInTime(world, next, id, errands[1..], k + 1);
      DecidedAlike(world, w, r);
    }
  }

  lemma SearchOwn(s: State, w: Row, e: Errand)
    requires w.expectedTx.Some? && w.terms.Some? && SearchGoesOn(s, w, e)
    ensures w.expectedTx == Some(OnePageOn(Search(s, w), e.page).tx)
  {
    SearchIsOwn(s, w);
    hide Search, Searching, Repeats;
  }

  lemma DecidedAlike(world: World, w: Row, r: Row)
    requires w.terms.Some? && w.expectedTx.Some? && r.terms == w.terms && r.expectedTx == w.expectedTx
    requires r.expectedNetwork == w.expectedNetwork && r.expectedPayer == w.expectedPayer
    ensures forall row :: Decided(world, r, row) == Decided(world, w, row)
  {
  }
}
