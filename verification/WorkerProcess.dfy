/**
 The poller and the reconciler as they run: one process, whose fields are changed one synchronous
 segment at a time over the shared store. Every method is proved to be the step of module Lifecycle
 that models it, so the theorems about runs of that machine are theorems about this object.

 `world` is ghost: it names the chain and the Indexer whose honest answers arrive as arguments.
 */
module WorkerProcess {
  import opened Common
  import opened Watches
  import opened ScanQueries
  import opened Chain
  import opened Lifecycle
  import opened WatchLaws
  import opened WatchStore
  import opened LifecycleTheorems
  import PageCache

  class Workers {
    const store: RoundWatchStore
    const pageCache: PageCache.HistoricalPageCache
    const variant: Variant
    const window: nat
    const network: string
    var listed: set<Row>
    var scans: map<nat, ScanSession>
    var scanOf: map<Id, nat>
    var proofs: map<nat, ProofSession>
    var proofOf: map<Id, nat>
    var turns: map<nat, Turn>
    var shared: map<(nat, Key), Page>
    var ledger: map<Id, seq<nat>>
    var overrun: bool
    ghost const world: World
    ghost var history: seq<Event>

    constructor (store: RoundWatchStore, pageCache: PageCache.HistoricalPageCache, variant: Variant, window: nat,
                 network: string, ghost world: World)
      requires store.Valid() && store.rows == map[] && pageCache.Valid() && pageCache.pages == map[]
      requires world.cfg == store.cfg && world.variant == variant && world.window == window && world.network == network
      ensures Valid() && this.store == store && this.pageCache == pageCache && this.world == world && history == []
    {
      this.store, this.pageCache, this.variant, this.window, this.network := store, pageCache, variant, window, network;
      listed, scans, scanOf, proofs, proofOf := {}, map[], map[], map[], map[];
      turns, shared, ledger, overrun := map[], map[], map[], false;
      this.world, history := world, [];
    }

    ghost function Model(): State
      reads this, store, pageCache
    {
      State(store.rows, listed, scans, scanOf, proofs, proofOf, turns, PageCache.Contents(pageCache.pages), shared, ledger, overrun)
    }

    /** The object is where the machine is after the history of this process and its predecessors. */
    ghost predicate Valid()
      reads this, store, pageCache
    {
      Serves(world) && Model() == Lifecycle.Run(world, Start(), history)
    }

    ghost predicate Serves(world: World)
      reads this, store, pageCache
    {
      && store.Valid() && pageCache.Valid() && world.cfg == store.cfg
      && world.variant == variant && world.window == window && world.network == network
    }

    // ---- Turns -----------------------------------------------------------------------------

    method EndTurn(t: nat)
      modifies this`turns
      ensures Model() == Finish(old(Model()), t)
    {
      turns := turns - {t};
    }

    method Park(t: nat, turn: Turn, pc: Pc)
      modifies this`turns
      ensures Model() == Suspend(old(Model()), t, turn, pc)
    {
      turns := turns[t := turn.(pc := pc)];
    }

    /** IndexerRequestTurnBudget.run, then the await. */
    method Request(t: nat, turn: Turn, pc: Pc, limit: nat)
      modifies this`turns, this`ledger, this`overrun
      ensures Model() == Ask(old(Model()), t, turn, pc, limit)
    {
      if turn.requests >= limit {
        turns := turns - {t};
        overrun := true;
      } else {
        turns := turns[t := turn.(pc := pc, requests := turn.requests + 1)];
        ledger := Bump(ledger, WatchOf(pc), turn.unit);
      }
    }

    method StartUnit(id: Id)
      modifies this`ledger
      ensures Model() == OpenUnit(old(Model()), id)
    {
      ledger := ledger[id := (if id in ledger then ledger[id] else []) + [0]];
    }

    // ---- Poller ----------------------------------------------------------------------------

    method ForgetScanSession(id: Id)
      modifies this`scanOf
      ensures Model() == ForgetScan(old(Model()), id)
    {
      scanOf := scanOf - {id};
    }

    method DropIncompatibleScan(id: Id, w: Option<Row>)
      modifies this`scanOf
      ensures Model() == DropStaleScan(old(Model()), id, w)
    {
      if id in scanOf {
        if scanOf[id] !in scans || !ScanFits(w, scans[scanOf[id]]) {
          scanOf := scanOf - {id};
        }
      }
    }

    /** getSweepPage. */
    method RequestSweepPage(ghost world: World, t: nat, turn: Turn, w: Row, session: nat)
      requires Serves(world)
      modifies this`turns, this`ledger, this`overrun, pageCache
      ensures Serves(world) && Model() == RequestPage(world, old(Model()), t, turn, w, session)
    {
      hide Ask, Finish, BuildQuery;
      if session !in scans {
        EndTurn(t);
        return;
      }
      var scan := scans[session];
      var q := BuildQuery(w.spec, variant, scan.minRound, scan.maxRound);
      if q.Thrown? {
        Request(t, turn, FailingPoll(w), MAX_POLLING_REQUESTS);
        return;
      }
      var key := Key(q.value, TokenSent(scan.next));
      var held := pageCache.GetCachedHistoricalPage(key);
      Request(t, turn, AwaitPage(w, session, key, held), MAX_POLLING_REQUESTS);
    }

    method ContinueAfterCheckpoint(ghost world: World, t: nat, turn: Turn, w: Row)
      requires Serves(world) && Pollable(w)
      modifies this, store`rows, pageCache
      ensures Serves(world) && Model() == AfterCheckpoint(world, old(Model()), t, turn, w)
    {
      hide Ask, Finish, RequestPage, DropStaleScan, Apply;
      if w.closing.Some? && w.closing.value <= w.scanAfter.value {
        var expired := store.MarkExpired(w.id, w.scanAfter.value, w.closing.value);
        EndTurn(t);
        return;
      }
      DropIncompatibleScan(w.id, Some(w));
      if w.id in scanOf {
        RequestSweepPage(world, t, turn, w, scanOf[w.id]);
      } else {
        Request(t, turn, AwaitSweepTip(w), MAX_POLLING_REQUESTS);
      }
    }

    /** serviceWatch, from its start to its first await. */
    method BeginPoll(ghost world: World, t: nat, sweep: nat, w: Row, at: int, now: int)
      requires Serves(world)
      modifies this, store`rows, pageCache
      ensures Serves(world) && Model() == StepBeginPoll(world, old(Model()), t, sweep, w, at, now)
    {
      hide Ask, AfterCheckpoint, DropStaleScan, Apply, OutcomeOf, OpenUnit, ForgetScan, PageCache.HistoricalPageCache.Valid, RoundWatchStore.Valid;
      if w.evidenceVersion != 1 || w.scanAfter.None? || w.expiresAt.None? {
        return;
      }
      var claimed := store.ClaimWorkUnit(w.id, PollClaim(w), at);
      match claimed {
        case Exhausted => ForgetScanSession(w.id);
        case Inactive => DropIncompatibleScan(w.id, store.GetWatch(w.id));
        case Claimed =>
          var turn := Turn(sweep, FailingPoll(w), if w.id in ledger then |ledger[w.id]| else 0, 0);
          StartUnit(w.id);
          if w.closing.None? && w.expiresAt.value <= now {
            Request(t, turn, AwaitTip(w), MAX_POLLING_REQUESTS);
          } else {
            ContinueAfterCheckpoint(world, t, turn, w);
          }
      }
    }

    method TipArrives(ghost world: World, t: nat, round: nat)
      requires Serves(world) && t in turns && turns[t].pc.AwaitTip?
      modifies this`turns, this`ledger, this`overrun
      ensures Model() == Ask(old(Model()), t, old(turns)[t], AwaitBlock(old(turns)[t].pc.w, round), MAX_POLLING_REQUESTS)
    {
      hide Ask;
      Request(t, turns[t], AwaitBlock(turns[t].pc.w, round), MAX_POLLING_REQUESTS);
    }

    /** The checkpoint block's time arrives: fix the closing round once it is at or past the deadline. */
    method BlockArrives(ghost world: World, t: nat, blockTime: nat)
      requires Serves(world) && t in turns && turns[t].pc.AwaitBlock? && blockTime == world.time(turns[t].pc.round)
      modifies this, store`rows, pageCache
      ensures Serves(world) && Model() == StepBlock(world, old(Model()), t, old(turns)[t])
    {
      hide Finish, AfterCheckpoint, Apply;
      var turn := turns[t];
      var w := turn.pc.w;
      if !Pollable(w) {
        EndTurn(t);
        return;
      }
      if blockTime * 1000 < w.expiresAt.value {
        ContinueAfterCheckpoint(world, t, turn, w);
        return;
      }
      var closing := store.SetClosingRound(w.id, turn.pc.round);
      var updated := store.GetWatch(w.id);
      if updated.Some? && Pollable(updated.value) {
        ContinueAfterCheckpoint(world, t, turn, updated.value);
      } else {
        EndTurn(t);
      }
    }

    /** The sweep tip arrives: open the next window, unless nothing new can be scanned. */
    method SweepTipArrives(ghost world: World, t: nat, round: nat, session: nat)
      requires Serves(world) && t in turns && turns[t].pc.AwaitSweepTip? && session !in scans
      modifies this, pageCache
      ensures Serves(world) && Model() == StepSweepTip(world, old(Model()), t, old(turns)[t], round, session)
    {
      hide Finish, RequestPage, PageCache.HistoricalPageCache.Valid, RoundWatchStore.Valid;
      var turn := turns[t];
      var w := turn.pc.w;
      if w.scanAfter.None? {
        EndTurn(t);
        return;
      }
      var maxRound := Min(w.scanAfter.value + window, round);
      if w.closing.Some? {
        maxRound := Min(maxRound, w.closing.value);
      }
      if maxRound <= w.scanAfter.value {
        EndTurn(t);
        return;
      }
      scans := scans[session := ScanSession(w.id, w.scanAfter.value + 1, maxRound, None, {}, 0)];
      scanOf := scanOf[w.id := session];
      RequestSweepPage(world, t, turn, w, session);
    }

    method CompleteScanWindow(ghost world: World, w: Row, maxRound: nat)
      requires Serves(world) && w.scanAfter.Some?
      modifies this, store`rows, pageCache
      ensures Serves(world) && Model() == CompleteWindow(world, old(Model()), w, maxRound)
    {
      hide Apply;
      ghost var advances := Advances(store.rows, w.id, w.scanAfter.value, maxRound);
      var advanced := store.AdvanceScanRound(w.id, w.scanAfter.value, maxRound);
      AdvancedExactly(world, old(Model()), w, maxRound);
      if advanced {
        var updated := store.rows[w.id];
        if updated.closing.Some? && updated.scanAfter == updated.closing {
          var expired := store.MarkExpired(w.id, updated.scanAfter.value, updated.closing.value);
        }
      }
    }

    /** serviceWatch, from the arrival of a page to its end. */
    method ConsumePage(ghost world: World, t: nat, page: Page)
      requires Serves(world) && t in turns && turns[t].pc.AwaitPage?
      modifies this, store`rows, pageCache
      ensures Serves(world) && Model() == Consume(world, old(Model()), t, old(turns)[t], page)
    {
      hide Finish, Suspend, ForgetScan, PutScan, CompleteWindow, Apply, FirstMatch, PageCache.HistoricalPageCache.Valid, RoundWatchStore.Valid;
      var turn := turns[t];
      var w, session := turn.pc.w, turn.pc.session;
      if session !in scans || w.scanAfter.None? {
        EndTurn(t);
        return;
      }
      var scan := scans[session];
      if page.currentRound < scan.maxRound {
        Park(t, turn, FailingPoll(w));
        return;
      }
      var found := FirstMatch(page.transactions, w);
      if found.Some? {
        var matched := store.MarkMatched(w.id, found.value.tx, found.value.round);
        ForgetScanSession(w.id);
        EndTurn(t);
        return;
      }
      if page.next.Some? {
        if page.next == scan.next || page.next.value in scan.seen {
          Park(t, turn, FailingPoll(w));
          return;
        }
        AdvanceSession(session, scan.(next := page.next, seen := scan.seen + {page.next.value}, consumed := scan.consumed + 1));
        EndTurn(t);
        return;
      }
      ForgetScanSession(w.id);
      CompleteScanWindow(world, w, scan.maxRound);
      EndTurn(t);
    }

    method AdvanceSession(session: nat, scan: ScanSession)
      modifies this`scans
      ensures Model() == PutScan(old(Model()), session, scan)
    {
      scans := scans[session := scan];
    }

    // ---- Pages -----------------------------------------------------------------------------

    /** A page taken from the historical cache when it was asked for. */
    method HeldPageArrives(ghost world: World, t: nat)
      requires Serves(world) && t in turns && turns[t].pc.AwaitPage? && turns[t].pc.held.Some?
      modifies this, store`rows, pageCache
      ensures Serves(world) && Model() == StepPage(world, old(Model()), t, old(turns)[t], Held)
    {
      hide Consume;
      ConsumePage(world, t, turns[t].pc.held.value);
    }

    /** A page another turn of the same sweep has already fetched. */
    method SharedPageArrives(ghost world: World, t: nat)
      requires Serves(world) && t in turns && turns[t].pc.AwaitPage? && (turns[t].sweep, turns[t].pc.key) in shared
      modifies this, store`rows, pageCache
      ensures Serves(world) && Model() == StepPage(world, old(Model()), t, old(turns)[t], FromSweep)
    {
      hide Consume;
      ConsumePage(world, t, shared[(turns[t].sweep, turns[t].pc.key)]);
    }

    /**
     A fetched body: validated, shared within the sweep, and offered to the cache once its window is history.
     What the cache evicts for it is what the machine evicts just before the page arrives.
     */
    method FetchedPageArrives(ghost world: World, t: nat, raw: RawPage, bytes: nat) returns (ghost gone: seq<Key>)
      requires Serves(world) && t in turns && turns[t].pc.AwaitPage? && HonestPage(world, turns[t].pc.key, raw)
      modifies this, store`rows, pageCache
      ensures Serves(world)
      ensures var evicted := old(Model()).(cache := PageCache.DropAll(old(Model()).cache, gone));
              Model() == StepPage(world, evicted, t, old(turns)[t], Fetched(raw, PageCache.Accepts(pageCache.limits, bytes)))
    {
      hide Consume, Suspend, ParsePage, HonestPage;
      var turn := turns[t];
      var key := turn.pc.key;
      gone := [];
      var page := ParsePage(raw, key.query.minRound, key.query.maxRound, turn.pc.w.spec, variant);
      if page.Thrown? {
        Park(t, turn, FailingPoll(turn.pc.w));
        return;
      }
      if key.query.maxRound <= page.value.currentRound {
        gone := CachePage(key, page.value, bytes);
      }
      shared := shared[(turn.sweep, key) := page.value];
      ConsumePage(world, t, page.value);
    }

    method CachePage(key: Key, page: Page, bytes: nat) returns (ghost gone: seq<Key>)
      requires pageCache.Valid()
      modifies pageCache
      ensures pageCache.Valid()
      ensures var dropped := PageCache.DropAll(PageCache.Contents(old(pageCache.pages)), gone);
              PageCache.Contents(pageCache.pages) ==
              if PageCache.Accepts(pageCache.limits, bytes) then dropped[key := page] else dropped
    {
      gone := [];
      if PageCache.Accepts(pageCache.limits, bytes) {
        gone := PageCache.PutIsEviction(pageCache.limits, pageCache.Model(), key, page, bytes);
      }
      pageCache.CacheHistoricalPage(key, page, bytes);
    }

    /** The sweep's catch block. */
    method PollFails(ghost world: World, t: nat, failure: Failure, retryAt: Option<int>)
      requires Serves(world) && t in turns && !turns[t].pc.AwaitActivation?
      modifies this, store`rows, pageCache
      ensures Serves(world) && Model() == StepPollFails(world, old(Model()), t, old(turns)[t], failure, retryAt)
    {
      hide Finish, Apply;
      var w := turns[t].pc.w;
      scanOf := scanOf - {w.id};
      pageCache.ClearHistoricalPageCache();
      var recorded := store.RecordPollingFailure(w.id, failure, retryAt);
      EndTurn(t);
    }

    // ---- Reconciler ------------------------------------------------------------------------

    method ForgetProofSession(id: Id)
      modifies this`proofOf
      ensures Model() == ForgetProof(old(Model()), id)
    {
      proofOf := proofOf - {id};
    }

    method DropIncompatibleProof(id: Id, w: Option<Row>)
      modifies this`proofOf
      ensures Model() == DropStaleProof(old(Model()), id, w)
    {
      if id in proofOf {
        if proofOf[id] !in proofs || !ProofFits(w, proofs[proofOf[id]]) {
          proofOf := proofOf - {id};
        }
      }
    }

    method RequestAbsencePage(t: nat, turn: Turn, w: Row, session: nat)
      modifies this`turns, this`ledger, this`overrun
      ensures Model() == RequestAbsence(old(Model()), t, turn, w, session)
    {
      hide Ask, Finish;
      if session !in proofs {
        EndTurn(t);
      } else {
        Request(t, turn, AwaitAbsence(w, session, TokenSent(proofs[session].next)), MAX_RECONCILIATION_REQUESTS);
      }
    }

    /** reconcileWatch, from its start to its first await. */
    method BeginReconcile(ghost world: World, t: nat, w: Row, at: int, nextAt: int)
      requires Serves(world)
      modifies this, store`rows, pageCache
      ensures Serves(world) && Model() == StepBeginReconcile(world, old(Model()), t, w, at, nextAt)
    {
      hide ClaimedReconcile, DropStaleProof, Apply, OutcomeOf, ForgetProof, PageCache.HistoricalPageCache.Valid, RoundWatchStore.Valid;
      if !Truthy(w.expectedTx) {
        return;
      }
      var claimed := store.ClaimWorkUnit(w.id, Reconciliation(w.expectedTx.value, w.attempts), at);
      match claimed {
        case Exhausted => ForgetProofSession(w.id);
        case Inactive => DropIncompatibleProof(w.id, store.GetWatch(w.id));
        case Claimed => ReconcileCharged(world, t, w, nextAt);
      }
    }

    method ReconcileCharged(ghost world: World, t: nat, w: Row, nextAt: int)
      requires Serves(world)
      modifies this, store`rows, pageCache
      ensures Serves(world) && Model() == ClaimedReconcile(world, old(Model()), t, w, nextAt)
    {
      hide Ask, DropStaleProof, Apply, OpenUnit, RequestAbsence, HasTerms;
      var turn := Turn(0, FailingProof(w), if w.id in ledger then |ledger[w.id]| else 0, 0);
      StartUnit(w.id);
      if !HasTerms(w) {
        store.RecordReconciliationFailure(w.id, nextAt);
        return;
      }
      DropIncompatibleProof(w.id, Some(w));
      if w.id in proofOf {
        RequestAbsencePage(t, turn, w, proofOf[w.id]);
      } else {
        Request(t, turn, AwaitLookup(w), MAX_RECONCILIATION_REQUESTS);
      }
    }

    /** applyConfirmed. */
    method ConfirmTransfer(ghost world: World, t: nat, turn: Turn, found: Transfer, at: int)
      requires Serves(world) && !turn.pc.AwaitActivation?
      modifies this, store`rows, pageCache
      ensures Serves(world) && Model() == ApplyConfirmed(world, old(Model()), t, turn, found, at)
    {
      hide Finish, Suspend, ForgetProof, Apply, MeetsTerms, EvidenceFits, Admits;
      var w := turn.pc.w;
      ForgetProofSession(w.id);
      if w.expectedTx == Some(found.tx) && w.expectedNetwork == Some(network) && MeetsTerms(w, found) {
        var ev := Evidence(found.tx, network, Some(found.sender));
        ghost var before := store.rows;
        var activated := store.ActivateWatch(w.id, ev, Some(found.round), at);
        if activated.Thrown? {
          RefusedActivation(world.cfg, before, Activate(w.id, ev, Some(found.round), at));
          Park(t, turn, FailingProof(w));
        } else {
          EndTurn(t);
        }
      } else {
        store.MarkSettlementInvalid(w.id);
        EndTurn(t);
      }
    }

    method LookupArrives(ghost world: World, t: nat, found: Option<Transfer>, at: int)
      requires Serves(world) && t in turns && turns[t].pc.AwaitLookup?
      requires turns[t].pc.w.expectedTx.Some? && HonestLookup(world, turns[t].pc.w.expectedTx.value, found)
      modifies this, store`rows, pageCache
      ensures Serves(world) && Model() == StepLookup(world, old(Model()), t, old(turns)[t], found, at)
    {
      hide Ask, ApplyConfirmed, HonestLookup;
      var turn := turns[t];
      if found.Some? {
        ConfirmTransfer(world, t, turn, found.value, at);
      } else {
        Request(t, turn, AwaitRound(turn.pc.w), MAX_RECONCILIATION_REQUESTS);
      }
    }

    method RoundArrives(ghost world: World, t: nat, round: nat, session: nat, nextAt: int)
      requires Serves(world) && t in turns && turns[t].pc.AwaitRound? && session !in proofs
      modifies this, store`rows, pageCache
      ensures Serves(world) && Model() == StepRound(world, old(Model()), t, old(turns)[t], round, session, nextAt)
    {
      hide Finish, RequestAbsence, Apply;
      var turn := turns[t];
      var w := turn.pc.w;
      if !HasTerms(w) {
        EndTurn(t);
        return;
      }
      if round <= w.terms.value.lastValid {
        store.RecordReconciliationFailure(w.id, nextAt);
        EndTurn(t);
        return;
      }
      proofs := proofs[session := ProofSession(w.id, w.expectedTx.value, None, {}, None, 0)];
      proofOf := proofOf[w.id := session];
      RequestAbsencePage(t, turn, w, session);
    }

    method SaveProof(session: nat, proof: ProofSession)
      modifies this`proofs
      ensures Model() == PutProof(old(Model()), session, proof)
    {
      proofs := proofs[session := proof];
    }

    /** reconcileWatch, from the arrival of a search page to its end. */
    method AbsenceArrives(ghost world: World, t: nat, page: AbsencePage, at: int, nextAt: int)
      requires Serves(world) && t in turns && turns[t].pc.AwaitAbsence? && HasTerms(turns[t].pc.w)
      requires turns[t].pc.session in proofs
      requires HonestAbsence(world, turns[t].pc.w.expectedTx.value, turns[t].pc.token, page)
      modifies this, store`rows, pageCache
      ensures Serves(world) && Model() == StepAbsence(world, old(Model()), t, old(turns)[t], page, at, nextAt)
    {
      hide Finish, Suspend, ForgetProof, ApplyConfirmed, Apply, HonestAbsence, Coverage, PageCache.HistoricalPageCache.Valid, RoundWatchStore.Valid;
      var turn := turns[t];
      var w, session := turn.pc.w, turn.pc.session;
      var coverage := Coverage(proofs[session].coverage, page.currentRound);
      var proof := proofs[session].(coverage := Some(coverage));
      ghost var before := Model();
      SaveProof(session, proof);
      if page.items != [] {
        ConfirmTransfer(world, t, turn, page.items[0], at);
        return;
      }
      if page.next.Some? {
        if page.next == proof.next || page.next.value in proof.seen {
          Park(t, turn, FailingProof(w));
          return;
        }
        var later := proof.(next := page.next, seen := proof.seen + {page.next.value}, consumed := proof.consumed + 1);
        SaveProof(session, later);
        assert Model() == PutProof(before, session, later);
        store.RecordReconciliationFailure(w.id, nextAt);
        EndTurn(t);
        return;
      }
      ForgetProofSession(w.id);
      if coverage <= w.terms.value.lastValid {
        Park(t, turn, FailingProof(w));
        return;
      }
      store.MarkSettlementInvalid(w.id);
      EndTurn(t);
    }

    method ProofFails(ghost world: World, t: nat, nextAt: int)
      requires Serves(world) && t in turns && !turns[t].pc.AwaitActivation?
      modifies this, store`rows, pageCache
      ensures Serves(world) && Model() == StepProofFails(world, old(Model()), t, old(turns)[t], nextAt)
    {
      hide Finish, ForgetProof, Apply;
      var w := turns[t].pc.w;
      ForgetProofSession(w.id);
      store.RecordReconciliationFailure(w.id, nextAt);
      EndTurn(t);
    }

    // ---- Settlement hooks ------------------------------------------------------------------

    /** onAfterSettle up to its lookup. */
    method Settled(ghost world: World, t: nat, id: Id, ev: Evidence)
      requires Serves(world)
      modifies this, store`rows, pageCache
      ensures Serves(world) && Model() == StepSettled(world, old(Model()), t, id, ev)
    {
      hide Apply, EvidenceFits, Admits, UpdateRow;
      var recorded := store.RecordSettlementCandidate(id, ev);
      if recorded.Ok? {
        turns := turns[t := Turn(0, AwaitActivation(id, ev), 0, 0)];
      } else {
        RefusedCandidate(world.cfg, old(store.rows), RecordCandidate(id, ev));
      }
    }

    /** onAfterSettle after its lookup; a refused activation is only logged. */
    method ActivationLookupArrives(ghost world: World, t: nat, found: Option<Transfer>, at: int)
      requires Serves(world) && t in turns && turns[t].pc.AwaitActivation? && HonestLookup(world, turns[t].pc.ev.tx, found)
      modifies this, store`rows, pageCache
      ensures Serves(world) && Model() == StepActivation(world, old(Model()), t, old(turns)[t], found, at)
    {
      hide Finish, Apply, MeetsTerms, HonestLookup;
      var id, ev := turns[t].pc.watch, turns[t].pc.ev;
      var watch := store.GetWatch(id);
      if found.None? || watch.None? {
        EndTurn(t);
        return;
      }
      if found.value.tx == ev.tx && MeetsTerms(watch.value, found.value) {
        var activated := store.ActivateWatch(id, ev, Some(found.value.round), at);
      } else {
        store.MarkSettlementInvalid(id);
      }
      EndTurn(t);
    }

    // ---- Clients, listing, upkeep ----------------------------------------------------------

    /** The create handler: a new watch starts with an empty request ledger. */
    method CreateWatch(ghost world: World, id: Id, spec: Spec, intent: Option<Intent>, at: int)
      requires Serves(world) && (intent.Some? ==> IntentSound(world, intent.value))
      modifies this, store`rows, pageCache
      ensures Serves(world) && Model() == StepPrepare(world, old(Model()), id, spec, intent, at)
    {
      hide Apply, PrepareOutcome, IntentSound;
      var isNew := id !in store.rows;
      var outcome := store.PrepareWatch(id, spec, intent, at);
      if isNew && id in store.rows {
        ledger := ledger[id := []];
      }
    }

    method ListWatches()
      modifies this`listed
      ensures Model() == old(Model()).(listed := old(Model()).listed + old(Model()).rows.Values)
    {
      listed := listed + store.rows.Values;
    }

    /** The process restarts: the rows survive, the start-up repair runs, everything else is gone. */
    method Restart(ghost world: World)
      requires Serves(world)
      modifies this, store`rows, pageCache
      ensures Serves(world) && Model() == StepCrash(world, old(Model()))
    {
      hide Apply;
      store.RepairWorkBudgets();
      pageCache.ClearHistoricalPageCache();
      listed, scanOf, proofOf, turns, shared := {}, map[], map[], map[], map[];
    }

    // ---- Whole runs ------------------------------------------------------------------------

    /** What reaches the process from outside is honest; evictions are the cache's own doing. */
    ghost predicate Arrives(e: Event, blockTime: nat, bytes: nat)
      reads this, pageCache
    {
      match e
      case Evict(_) => false
      case PrepareWatch(_, _, intent, _) => intent.Some? ==> IntentSound(world, intent.value)
      case BlockArrives(t) => t in turns && turns[t].pc.AwaitBlock? ==> blockTime == world.time(turns[t].pc.round)
      case PageArrives(t, source) =>
        t in turns && turns[t].pc.AwaitPage? && source.Fetched? ==>
          HonestPage(world, turns[t].pc.key, source.raw) && source.kept == PageCache.Accepts(pageCache.limits, bytes)
      case LookupArrives(t, found, _) =>
        t in turns && turns[t].pc.AwaitLookup? && turns[t].pc.w.expectedTx.Some? ==>
          HonestLookup(world, turns[t].pc.w.expectedTx.value, found)
      case AbsenceArrives(t, page, _, _) =>
        t in turns && turns[t].pc.AwaitAbsence? && turns[t].pc.w.expectedTx.Some? ==>
          HonestAbsence(world, turns[t].pc.w.expectedTx.value, turns[t].pc.token, page)
      case ActivationLookup(t, found, _) =>
        t in turns && turns[t].pc.AwaitActivation? ==> HonestLookup(world, turns[t].pc.ev.tx, found)
      case _ => true
    }

    method HandleClient(e: Event, blockTime: nat, bytes: nat)
      requires Serves(world) && OfClient(e) && Arrives(e, blockTime, bytes)
      modifies this, store`rows, pageCache
      ensures Serves(world) && Model() == StepClient(world, old(Model()), e)
    {
      hide Apply, StepPrepare, StepSettled, IntentSound, HonestPage, HonestLookup, HonestAbsence, PageCache.HistoricalPageCache.Valid, RoundWatchStore.Valid;
      match e {
        case PrepareWatch(id, spec, intent, at) => CreateWatch(world, id, spec, intent, at);
        case SettlementFailed(id) => store.MarkSettlementUnknown(id);
        case Settled(t, id, ev) => if t !in turns { Settled(world, t, id, ev); }
        case ClearPollingFailure(id) => store.ClearPollingFailure(id);
        case _ =>
      }
    }

    method HandleWorker(e: Event)
      requires Serves(world) && OfWorker(e)
      modifies this, store`rows, pageCache
      ensures Serves(world) && Model() == StepWorker(world, old(Model()), e)
    {
      hide Apply, StepBeginPoll, StepBeginReconcile, PageCache.HistoricalPageCache.Valid, RoundWatchStore.Valid;
      match e {
        case List => ListWatches();
        case BeginPoll(t, sweep, w, at, now) => if t !in turns && w in listed { BeginPoll(world, t, sweep, w, at, now); }
        case BeginReconcile(t, w, at, nextAt) => if t !in turns && w in listed { BeginReconcile(world, t, w, at, nextAt); }
        case _ =>
      }
    }

    method HandleUpkeep(e: Event)
      requires Serves(world) && OfUpkeep(e) && !e.Evict?
      modifies this, store`rows, pageCache
      ensures Serves(world) && Model() == StepUpkeep(world, old(Model()), e)
    {
      hide Apply, StepCrash, DropStaleScan, DropStaleProof, ScanFits, ProofFits, PageCache.Contents, PageCache.HistoricalPageCache.Valid, RoundWatchStore.Valid;
      match e {
        case PruneScan(id) => DropIncompatibleScan(id, store.GetWatch(id));
        case PruneProof(id) => DropIncompatibleProof(id, store.GetWatch(id));
        case Crash => Restart(world);
        case _ =>
      }
    }

    method HandlePolling(e: Event, blockTime: nat, bytes: nat)
      requires Serves(world) && !OfClient(e) && !OfWorker(e) && !OfUpkeep(e) && e.turn in turns && Arrives(e, blockTime, bytes)
      requires e.TipArrives? || e.BlockArrives? || e.SweepTipArrives? || e.PollFails?
      modifies this, store`rows, pageCache
      ensures Serves(world) && Model() == StepTurn(world, old(Model()), e, e.turn, old(turns)[e.turn])
    {
      hide Ask, StepBlock, StepSweepTip, StepPollFails, IntentSound, HonestPage, HonestLookup, HonestAbsence, PageCache.HistoricalPageCache.Valid, RoundWatchStore.Valid;
      var pc := turns[e.turn].pc;
      match e {
        case TipArrives(t, round) => if pc.AwaitTip? { TipArrives(world, t, round); }
        case BlockArrives(t) => if pc.AwaitBlock? { BlockArrives(world, t, blockTime); }
        case SweepTipArrives(t, round, session) =>
          if pc.AwaitSweepTip? && session !in scans { SweepTipArrives(world, t, round, session); }
        case PollFails(t, failure, retryAt) =>
          if pc.AwaitTip? || pc.AwaitBlock? || pc.AwaitSweepTip? || pc.AwaitPage? || pc.FailingPoll? {
            PollFails(world, t, failure, retryAt);
          }
        case _ =>
      }
    }

    method HandlePage(e: Event, blockTime: nat, bytes: nat) returns (ghost gone: seq<Key>)
      requires Serves(world) && e.PageArrives? && e.turn in turns && Arrives(e, blockTime, bytes)
      modifies this, store`rows, pageCache
      ensures Serves(world)
      ensures var evicted := old(Model()).(cache := PageCache.DropAll(old(Model()).cache, gone));
              Model() == StepTurn(world, evicted, e, e.turn, old(turns)[e.turn])
    {
      hide StepPage, IntentSound, HonestPage, HonestLookup, HonestAbsence, PageCache.HistoricalPageCache.Valid, RoundWatchStore.Valid;
      gone := [];
      var t, turn := e.turn, turns[e.turn];
      if turn.pc.AwaitPage? {
        match e.source {
          case Held => HandleHeld(t);
          case FromSweep => HandleShared(t);
          case Fetched(raw, kept) => gone := FetchedPageArrives(world, t, raw, bytes);
        }
      }
    }

    method HandleHeld(t: nat)
      requires Serves(world) && t in turns && turns[t].pc.AwaitPage?
      modifies this, store`rows, pageCache
      ensures Serves(world) && Model() == StepPage(world, old(Model()), t, old(turns)[t], Held)
    {
      hide Consume;
      if turns[t].pc.held.Some? {
        HeldPageArrives(world, t);
      }
    }

    method HandleShared(t: nat)
      requires Serves(world) && t in turns && turns[t].pc.AwaitPage?
      modifies this, store`rows, pageCache
      ensures Serves(world) && Model() == StepPage(world, old(Model()), t, old(turns)[t], FromSweep)
    {
      hide Consume;
      if (turns[t].sweep, turns[t].pc.key) in shared {
        SharedPageArrives(world, t);
      }
    }

    method HandleProof(e: Event, blockTime: nat, bytes: nat)
      requires Serves(world) && !OfClient(e) && !OfWorker(e) && !OfUpkeep(e) && e.turn in turns && Arrives(e, blockTime, bytes)
      requires e.LookupArrives? || e.RoundArrives? || e.AbsenceArrives? || e.ProofFails? || e.Interrupted? || e.ActivationLookup?
      modifies this, store`rows, pageCache
      ensures Serves(world) && Model() == StepTurn(world, old(Model()), e, e.turn, old(turns)[e.turn])
    {
      hide StepActivation, StepRound, StepProofFails, Finish, StepLookup, StepAbsence, PageCache.Contents, PageCache.HistoricalPageCache.Valid, RoundWatchStore.Valid;
      hide IntentSound, HonestPage, HonestLookup, HonestAbsence;
      var pc := turns[e.turn].pc;
      match e {
        case ActivationLookup(t, found, at) => if pc.AwaitActivation? { ActivationLookupArrives(world, t, found, at); }
        case LookupArrives(t, found, at) => if pc.AwaitLookup? { HandleLookup(t, found, at); }
        case RoundArrives(t, round, session, nextAt) =>
          if pc.AwaitRound? && session !in proofs { RoundArrives(world, t, round, session, nextAt); }
        case AbsenceArrives(t, page, at, nextAt) => if pc.AwaitAbsence? { HandleAbsence(t, page, at, nextAt); }
        case ProofFails(t, nextAt) =>
          if pc.AwaitLookup? || pc.AwaitRound? || pc.AwaitAbsence? || pc.FailingProof? { ProofFails(world, t, nextAt); }
        case Interrupted(t) => EndTurn(t);
        case _ =>
      }
    }

    method HandleLookup(t: nat, found: Option<Transfer>, at: int)
      requires Serves(world) && t in turns && turns[t].pc.AwaitLookup?
      requires turns[t].pc.w.expectedTx.Some? ==> HonestLookup(world, turns[t].pc.w.expectedTx.value, found)
      modifies this, store`rows, pageCache
      ensures Serves(world) && Model() == StepLookup(world, old(Model()), t, old(turns)[t], found, at)
    {
      hide Ask, ApplyConfirmed, HonestLookup;
      if turns[t].pc.w.expectedTx.Some? {
        LookupArrives(world, t, found, at);
      }
    }

    method HandleAbsence(t: nat, page: AbsencePage, at: int, nextAt: int)
      requires Serves(world) && t in turns && turns[t].pc.AwaitAbsence?
      requires turns[t].pc.w.expectedTx.Some? ==> HonestAbsence(world, turns[t].pc.w.expectedTx.value, turns[t].pc.token, page)
      modifies this, store`rows, pageCache
      ensures Serves(world) && Model() == StepAbsence(world, old(Model()), t, old(turns)[t], page, at, nextAt)
    {
      hide Finish, Suspend, ForgetProof, ApplyConfirmed, Apply, HonestAbsence, Coverage;
      if turns[t].pc.session in proofs && HasTerms(turns[t].pc.w) {
        AbsenceArrives(world, t, page, at, nextAt);
      }
    }

    /** One event of the process, whatever it is: the machine takes the same step. */
    method Handle(e: Event, blockTime: nat, bytes: nat) returns (ghost gone: seq<Key>)
      requires Serves(world) && Arrives(e, blockTime, bytes)
      modifies this, store`rows, pageCache
      ensures Serves(world)
      ensures Model() == Step(world, old(Model()).(cache := PageCache.DropAll(old(Model()).cache, gone)), e)
    {
      hide StepClient, StepWorker, StepUpkeep, StepTurn, Arrives, PageCache.DropAll, PageCache.HistoricalPageCache.Valid, RoundWatchStore.Valid;
      gone := [];
      NothingGone(Model().cache);
      if OfClient(e) {
        HandleClient(e, blockTime, bytes);
      } else if OfWorker(e) {
        HandleWorker(e);
      } else if OfUpkeep(e) {
        NoEviction(e, blockTime, bytes);
        HandleUpkeep(e);
      } else if e.turn in turns {
        gone := HandleTurn(e, blockTime, bytes);
      }
    }

    lemma NoEviction(e: Event, blockTime: nat, bytes: nat)
      requires Arrives(e, blockTime, bytes)
      ensures !e.Evict?
    {
    }

    method HandleTurn(e: Event, blockTime: nat, bytes: nat) returns (ghost gone: seq<Key>)
      requires Serves(world) && !OfClient(e) && !OfWorker(e) && !OfUpkeep(e) && e.turn in turns && Arrives(e, blockTime, bytes)
      modifies this, store`rows, pageCache
      ensures Serves(world)
      ensures var evicted := old(Model()).(cache := PageCache.DropAll(old(Model()).cache, gone));
              Model() == StepTurn(world, evicted, e, e.turn, old(turns)[e.turn])
    {
      hide StepTurn, Arrives, PageCache.DropAll;
      gone := [];
      NothingGone(Model().cache);
      if e.PageArrives? {
        gone := HandlePage(e, blockTime, bytes);
      } else if e.TipArrives? || e.BlockArrives? || e.SweepTipArrives? || e.PollFails? {
        HandlePolling(e, blockTime, bytes);
      } else {
        HandleProof(e, blockTime, bytes);
      }
    }

    /** The process and the machine stay together, one recorded event after the other. */
    method Deliver(e: Event, blockTime: nat, bytes: nat)
      requires Valid() && Arrives(e, blockTime, bytes)
      modifies this, store`rows, pageCache
      ensures Valid() && old(history) < history && history[|history| - 1] == e
      ensures forall i | |old(history)| <= i < |history| - 1 :: history[i].Evict?
    {
      hide Step, Lifecycle.Run, PageCache.HistoricalPageCache.Valid, RoundWatchStore.Valid;
      ghost var past := history;
      ghost var gone := Handle(e, blockTime, bytes);
      Extends(world, past, gone, e);
      history := past + Evictions(gone) + [e];
    }

    // ---- What is true of the object --------------------------------------------------------

    /** An expired row of the store never has a payment that meets its contract, anywhere on the chain. */
    lemma ExpiredRowIsUnpaid(id: Id)
      requires Valid() && Honest(world) && id in store.rows && store.rows[id].state == Expired
      ensures Unpaid(world, store.rows[id])
    {
      hide Lifecycle.Run, Honest;
      ExpiredMeansUnpaid(world, history, id);
    }

    /** A matched row names a confirmed payment that meets the whole contract, the first one delivered. */
    lemma MatchedRowIsPaid(id: Id)
      requires Valid() && Honest(world) && id in store.rows && store.rows[id].state == Matched
      ensures store.rows[id].matched.Some? && Paid(world, store.rows[id], store.rows[id].matched.value)
    {
      hide Lifecycle.Run, Honest, Paid;
      MatchedMeansPaid(world, history, id);
    }

    /** A settlement that is confirmed and meets its terms is not rejected for good. */
    lemma GoodSettlementIsNotRejected(id: Id, t: Transfer)
      requires Valid() && Honest(world) && id in store.rows
      requires var r := store.rows[id];
               && r.expectedTx == Some(t.tx) && r.expectedNetwork == Some(world.network)
               && world.byId(t.tx) == Some(t) && MeetsTerms(r, t)
      ensures !(store.rows[id].state == SettlementUnknown && store.rows[id].terminal)
    {
      hide Lifecycle.Run, Honest, MeetsTerms;
      GoodSettlementNeverRejected(world, history, id, t);
    }
  }

  // ---- Evictions in a history --------------------------------------------------------------

  function Evictions(gone: seq<Key>): (events: seq<Event>)
    ensures |events| == |gone| && forall i | 0 <= i < |events| :: events[i].Evict?
  {
    if gone == [] then [] else [Evict(gone[0])] + Evictions(gone[1..])
  }

  lemma {:induction false} RunEvictions(world: World, s: State, gone: seq<Key>)
    ensures Lifecycle.Run(world, s, Evictions(gone)) == s.(cache := PageCache.DropAll(s.cache, gone))
    decreases |gone|
  {
    if gone != [] {
      var events := Evictions(gone);
      assert events[0] == Evict(gone[0]) && events[1..] == Evictions(gone[1..]);
      EvictStep(world, s, gone[0]);
      hide Step;
      RunEvictions(world, s.(cache := s.cache - {gone[0]}), gone[1..]);
    }
  }

  lemma NothingGone(table: map<Key, Page>)
    ensures PageCache.DropAll(table, []) == table
  {
  }

  lemma EvictStep(world: World, s: State, key: Key)
    ensures Step(world, s, Evict(key)) == s.(cache := s.cache - {key})
  {
    hide StepClient, StepWorker, StepTurn, StepCrash, DropStaleScan, DropStaleProof;
  }

  lemma Extends(world: World, history: seq<Event>, gone: seq<Key>, e: Event)
    ensures var before := Lifecycle.Run(world, Start(), history);
            Lifecycle.Run(world, Start(), history + Evictions(gone) + [e])
            == Step(world, before.(cache := PageCache.DropAll(before.cache, gone)), e)
  {
    hide Step;
    var before := Lifecycle.Run(world, Start(), history);
    RunSplits(world, Start(), history + Evictions(gone), [e]);
    RunSplits(world, Start(), history, Evictions(gone));
    RunEvictions(world, before, gone);
    RunOne(world, before.(cache := PageCache.DropAll(before.cache, gone)), e);
  }

  lemma RunOne(world: World, s: State, e: Event)
    ensures Lifecycle.Run(world, s, [e]) == Step(world, s, e)
  {
    hide Step;
    assert [e][1..] == [];
    assert Lifecycle.Run(world, Step(world, s, e), []) == Step(world, s, e);
  }

  /** advanceScanRound reports true exactly when it moved the cursor. */
  lemma AdvancedExactly(world: World, s: State, w: Row, maxRound: nat)
    requires w.scanAfter.Some? && WellFormedTable(s.rows)
    ensures var later := Apply(world.cfg, s.rows, AdvanceScan(w.id, w.scanAfter.value, maxRound));
            && (Advances(s.rows, w.id, w.scanAfter.value, maxRound) <==> later != s.rows)
            && (later != s.rows ==> w.id in later)
  {
    var op := AdvanceScan(w.id, w.scanAfter.value, maxRound);
    UpdateAdmitted(world.cfg, s.rows, op);
    if Advances(s.rows, w.id, w.scanAfter.value, maxRound) {
      assert Apply(world.cfg, s.rows, op)[w.id].scanAfter != s.rows[w.id].scanAfter;
    }
  }

  /** A refused activation or candidate leaves the table as it was. */
  lemma RefusedActivation(cfg: Config, rows: Rows, op: Op)
    requires op.Activate? && WellFormedTable(rows) && ActivationThrows(rows, op)
    ensures Apply(cfg, rows, op) == rows
  {
    if op.id in rows { UnchangedRow(rows, op.id); }
  }

  lemma RefusedCandidate(cfg: Config, rows: Rows, op: Op)
    requires op.RecordCandidate? && WellFormedTable(rows) && !CandidateAccepted(rows, op)
    ensures Apply(cfg, rows, op) == rows
  {
    if op.id in rows { UnchangedRow(rows, op.id); }
  }
}
