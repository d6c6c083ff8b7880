/**
 What holds in every reachable state, under any interleaving of turns, sweeps, crashes and clients:
 expiry proves absence, a match is real and first, a rejection is justified, activation is determined.
 */
module LifecycleTheorems {
  import opened Common
  import opened Numerals
  import opened Watches
  import opened WatchLaws
  import opened ScanQueries
  import opened ScanLaws
  import opened Chain
  import opened Lifecycle
  import opened RowSoundness
  import opened LifecycleSafety
  import opened PollingSafety
  import opened ReconcilingSafety
  import opened LifecycleStatements

  // ---- Every step keeps the invariant ------------------------------------------------------

  lemma PollPcFacts(world: World, rows: Rows, scans: map<nat, ScanSession>, proofs: map<nat, ProofSession>, pc: Pc)
    requires PcSound(world, rows, scans, proofs, pc) && (pc.AwaitTip? || pc.AwaitBlock? || pc.AwaitSweepTip?)
    ensures Snapshot(rows, pc.w) && Pollable(pc.w)
  {
    hide Snapshot, Pollable;
  }

  lemma ProofPcFacts(world: World, rows: Rows, scans: map<nat, ScanSession>, proofs: map<nat, ProofSession>, pc: Pc)
    requires PcSound(world, rows, scans, proofs, pc) && (pc.AwaitLookup? || pc.AwaitRound?)
    ensures Snapshot(rows, pc.w) && HasTerms(pc.w)
  {
    hide Snapshot, HasTerms;
  }

  lemma PollTurnKeeps(world: World, s: State, e: Event, t: nat, turn: Turn)
    requires Honest(world) && Inv(world, s) && PcSound(world, s.rows, s.scans, s.proofs, turn.pc)
    requires e.TipArrives? || e.BlockArrives? || e.SweepTipArrives? || e.PageArrives? || e.PollFails?
    ensures Inv(world, StepTurn(world, s, e, t, turn))
  {
    hide Honest, Inv, PcSound, Snapshot, Pollable, StepBlock, StepSweepTip, StepPage, StepPollFails, Ask;
    match e {
      case TipArrives(_, round) =>
        if turn.pc.AwaitTip? {
          PollPcFacts(world, s.rows, s.scans, s.proofs, turn.pc);
          PollPcSound(world, s.rows, s.scans, s.proofs, turn.pc.w, round);
          AskKeeps(world, s, t, turn, AwaitBlock(turn.pc.w, round), MAX_POLLING_REQUESTS);
        }
      case BlockArrives(_) =>
        if turn.pc.AwaitBlock? {
          PollPcFacts(world, s.rows, s.scans, s.proofs, turn.pc);
          BlockKeeps(world, s, t, turn);
        }
      case SweepTipArrives(_, round, session) =>
        if turn.pc.AwaitSweepTip? && session !in s.scans {
          PollPcFacts(world, s.rows, s.scans, s.proofs, turn.pc);
          SweepTipKeeps(world, s, t, turn, round, session);
        }
      case PageArrives(_, source) => if turn.pc.AwaitPage? { PageKeeps(world, s, t, turn, source); }
      case PollFails(_, f, retryAt) => if !turn.pc.AwaitActivation? { PollFailsKeeps(world, s, t, turn, f, retryAt); }
      case _ =>
    }
  }

  lemma ProofTurnKeeps(world: World, s: State, e: Event, t: nat, turn: Turn)
    requires Honest(world) && Inv(world, s) && PcSound(world, s.rows, s.scans, s.proofs, turn.pc)
    requires !(e.TipArrives? || e.BlockArrives? || e.SweepTipArrives? || e.PageArrives? || e.PollFails?)
    ensures Inv(world, StepTurn(world, s, e, t, turn))
  {
    hide Honest, Inv, PcSound, Snapshot, HasTerms, StepActivation, StepLookup, StepRound, StepAbsence, StepProofFails, Finish;
    match e {
      case ActivationLookup(_, found, at) => if turn.pc.AwaitActivation? { ActivationKeeps(world, s, t, turn, found, at); }
      case LookupArrives(_, found, at) =>
        if turn.pc.AwaitLookup? {
          ProofPcFacts(world, s.rows, s.scans, s.proofs, turn.pc);
          LookupKeeps(world, s, t, turn, found, at);
        }
      case RoundArrives(_, round, session, nextAt) =>
        if turn.pc.AwaitRound? && session !in s.proofs {
          ProofPcFacts(world, s.rows, s.scans, s.proofs, turn.pc);
          RoundKeeps(world, s, t, turn, round, session, nextAt);
        }
      case AbsenceArrives(_, page, at, nextAt) =>
        if turn.pc.AwaitAbsence? { AbsenceKeeps(world, s, t, turn, page, at, nextAt); }
      case ProofFails(_, nextAt) => if !turn.pc.AwaitActivation? { ProofFailsKeeps(world, s, t, turn, nextAt); }
      case Interrupted(_) => FinishKeeps(world, s, t);
      case _ =>
    }
  }

  lemma TurnPcSound(world: World, s: State, t: nat)
    requires Inv(world, s) && t in s.turns
    ensures PcSound(world, s.rows, s.scans, s.proofs, s.turns[t].pc)
  {
    hide TableSound, ListedSound, ScansSound, ScansOwned, ProofsSound, ProofsOwned, PagesSound, PcSound;
  }

  lemma ListedSnapshot(world: World, s: State, w: Row)
    requires Inv(world, s) && w in s.listed
    ensures Snapshot(s.rows, w)
  {
    hide TableSound, ScansSound, ScansOwned, ProofsSound, ProofsOwned, PagesSound, TurnsSound, Snapshot;
  }

  lemma ListKeeps(world: World, s: State)
    requires Inv(world, s)
    ensures Inv(world, s.(listed := s.listed + s.rows.Values))
  {
    hide TableSound, ScansSound, ScansOwned, ProofsSound, ProofsOwned, PagesSound, TurnsSound, Snapshot;
    forall w <- s.rows.Values ensures Snapshot(s.rows, w) {
      var id :| id in s.rows && s.rows[id] == w;
      CurrentRowSnapshot(world, s, id);
    }
  }

  lemma LedgerFree(world: World, s: State, ledger: map<Id, seq<nat>>)
    requires Inv(world, s)
    ensures Inv(world, s.(ledger := ledger))
  {
    hide TableSound, ListedSound, ScansSound, ScansOwned, ProofsSound, ProofsOwned, PagesSound, TurnsSound;
  }

  /** Work in progress carries evidence but owns none: all of it may be dropped. */
  lemma WorkDropped(world: World, s: State)
    requires Inv(world, s)
    ensures Inv(world, s.(listed := {}, scanOf := map[], proofOf := map[], turns := map[], cache := map[], shared := map[]))
  {
    hide TableSound, ScansSound, ProofsSound;
  }

  lemma CrashKeeps(world: World, s: State)
    requires Inv(world, s)
    ensures Inv(world, StepCrash(world, s))
  {
    hide Inv, Store;
    StoreKeeps(world, s, RepairBudgets);
    WorkDropped(world, Store(world, s, RepairBudgets));
  }

  lemma EvictKeeps(world: World, s: State, key: Key)
    requires Inv(world, s)
    ensures Inv(world, s.(cache := Without(s.cache, key)))
  {
    hide TableSound, ListedSound, ScansSound, ScansOwned, ProofsSound, ProofsOwned, TurnsSound, PageSound;
  }

  lemma PrepareKeeps(world: World, s: State, id: Id, spec: Spec, intent: Option<Intent>, at: int)
    requires Inv(world, s)
    ensures Inv(world, StepPrepare(world, s, id, spec, intent, at))
  {
    hide Inv, IntentSound, Store;
    if intent.Some? && !IntentSound(world, intent.value) {
    } else {
      var s1 := Store(world, s, Prepare(id, spec, intent, at));
      StoreKeeps(world, s, Prepare(id, spec, intent, at));
      LedgerFree(world, s1, s1.ledger[id := []]);
    }
  }

  lemma ClientKeeps(world: World, s: State, e: Event)
    requires Inv(world, s)
    ensures Inv(world, StepClient(world, s, e))
  {
    hide Inv, Store, StepPrepare, StepSettled;
    match e {
      case PrepareWatch(id, spec, intent, at) => PrepareKeeps(world, s, id, spec, intent, at);
      case SettlementFailed(id) => StoreKeeps(world, s, MarkUnknown(id));
      case Settled(t, id, ev) => SettledKeeps(world, s, t, id, ev);
      case ClearPollingFailure(id) => StoreKeeps(world, s, ClearFailure(id));
      case _ =>
    }
  }

  lemma WorkerKeeps(world: World, s: State, e: Event)
    requires Honest(world) && Inv(world, s)
    ensures Inv(world, StepWorker(world, s, e))
  {
    hide Honest, Inv, StepBeginPoll, StepBeginReconcile;
    match e {
      case List => ListKeeps(world, s);
      case BeginPoll(t, sweep, w, at, now) =>
        if t in s.turns || w !in s.listed {
        } else {
          ListedSnapshot(world, s, w);
          BeginPollKeeps(world, s, t, sweep, w, at, now);
        }
      case BeginReconcile(t, w, at, nextAt) =>
        if t in s.turns || w !in s.listed {
        } else {
          ListedSnapshot(world, s, w);
          BeginReconcileKeeps(world, s, t, w, at, nextAt);
        }
      case _ =>
    }
  }

  lemma UpkeepKeeps(world: World, s: State, e: Event)
    requires Inv(world, s)
    ensures Inv(world, StepUpkeep(world, s, e))
  {
    hide Inv, DropStaleScan, DropStaleProof, StepCrash, Without;
    match e {
      case PruneScan(id) => DropStaleScanKeeps(world, s, id, RowOf(s.rows, id));
      case PruneProof(id) => DropStaleProofKeeps(world, s, id, RowOf(s.rows, id));
      case Evict(key) => EvictKeeps(world, s, key);
      case Crash => CrashKeeps(world, s);
      case _ =>
    }
  }

  lemma TurnKeeps(world: World, s: State, e: Event, t: nat)
    requires Honest(world) && Inv(world, s) && t in s.turns
    ensures Inv(world, StepTurn(world, s, e, t, s.turns[t]))
  {
    hide Honest, Inv, PcSound;
    TurnPcSound(world, s, t);
    if e.TipArrives? || e.BlockArrives? || e.SweepTipArrives? || e.PageArrives? || e.PollFails? {
      PollTurnKeeps(world, s, e, t, s.turns[t]);
    } else {
      ProofTurnKeeps(world, s, e, t, s.turns[t]);
    }
  }

  lemma StepKeeps(world: World, s: State, e: Event)
    requires Honest(world) && Inv(world, s)
    ensures Inv(world, Step(world, s, e))
  {
    hide Honest, Inv, StepClient, StepWorker, StepUpkeep, StepTurn;
    if OfClient(e) {
      ClientKeeps(world, s, e);
    } else if OfWorker(e) {
      WorkerKeeps(world, s, e);
    } else if OfUpkeep(e) {
      UpkeepKeeps(world, s, e);
    } else if e.turn in s.turns {
      TurnKeeps(world, s, e, e.turn);
    } else {
    }
  }

  lemma {:induction false} RunStaysSound(world: World, s: State, events: seq<Event>)
    requires Honest(world) && Inv(world, s)
    ensures Inv(world, Lifecycle.Run(world, s, events))
    decreases |events|
  {
    hide Honest, Inv, Step;
    if events != [] {
      StepKeeps(world, s, events[0]);
      RunStaysSound(world, Step(world, s, events[0]), events[1..]);
    }
  }

  lemma StartIsSound(world: World)
    ensures Inv(world, Start())
  {
  }

  // ---- Theorems over every run -------------------------------------------------------------

  /** In every reachable state, the table means what it says. */
  lemma ReachableRow(world: World, events: seq<Event>, id: Id)
    requires Honest(world) && id in Lifecycle.Run(world, Start(), events).rows
    ensures var r := Lifecycle.Run(world, Start(), events).rows[id]; WellFormed(r) && RowSound(world, r)
  {
    hide Honest, WellFormed, RowSound, Lifecycle.Run;
    StartIsSound(world);
    RunStaysSound(world, Start(), events);
    assert TableSound(world, Lifecycle.Run(world, Start(), events).rows) by {
      hide ListedSound, ScansSound, ScansOwned, ProofsSound, ProofsOwned, PagesSound, TurnsSound;
    }
  }

  /**
   Expiry is a proof of absence. Whatever happened before, an expired watch has no payment that
   meets its contract, before or after the expiry, anywhere on the chain.
   */
  lemma ExpiredMeansUnpaid(world: World, events: seq<Event>, id: Id)
    requires Honest(world) && id in Lifecycle.Run(world, Start(), events).rows
    requires Lifecycle.Run(world, Start(), events).rows[id].state == Expired
    ensures Unpaid(world, Lifecycle.Run(world, Start(), events).rows[id])
  {
    hide Lifecycle.Run, Honest, Covered, Paid, NeverPaid, Activated;
    var r := Lifecycle.Run(world, Start(), events).rows[id];
    ReachableRow(world, events, id);
    CheckpointProvesAbsence(world, r, r.closing.value, r.scanAfter.value);
  }

  /** A match names a confirmed payment that meets the whole contract, the first one delivered. */
  lemma MatchedMeansPaid(world: World, events: seq<Event>, id: Id)
    requires Honest(world) && id in Lifecycle.Run(world, Start(), events).rows
    requires Lifecycle.Run(world, Start(), events).rows[id].state == Matched
    ensures var r := Lifecycle.Run(world, Start(), events).rows[id];
            r.matched.Some? && Paid(world, r, r.matched.value)
  {
    hide Lifecycle.Run, Honest, Covered, Paid, NeverPaid, Activated;
    ReachableRow(world, events, id);
  }

  /** With pages in round order, no payment that meets the contract is earlier than the recorded one. */
  lemma MatchedIsEarliest(world: World, events: seq<Event>, id: Id, t: Transfer)
    requires Honest(world) && RoundOrdered(world) && id in Lifecycle.Run(world, Start(), events).rows
    requires var r := Lifecycle.Run(world, Start(), events).rows[id];
             r.state == Matched && Confirmed(world, t) && Matches(t, r)
    ensures var r := Lifecycle.Run(world, Start(), events).rows[id];
            r.matched.Some? && r.matched.value.round <= t.round
  {
    hide Lifecycle.Run, Honest, RoundOrdered, Paid, Confirmed, Matches;
    MatchedMeansPaid(world, events, id);
    FirstIsEarliest(world, Lifecycle.Run(world, Start(), events).rows[id],
                    Lifecycle.Run(world, Start(), events).rows[id].matched.value, t);
  }

  /** A watch with a payment that meets its contract is never expired: it can still only match. */
  lemma PaidNeverExpires(world: World, events: seq<Event>, id: Id, t: Transfer)
    requires Honest(world) && id in Lifecycle.Run(world, Start(), events).rows
    requires Confirmed(world, t) && Matches(t, Lifecycle.Run(world, Start(), events).rows[id])
    ensures Lifecycle.Run(world, Start(), events).rows[id].state != Expired
  {
    hide Lifecycle.Run, Honest, Confirmed, Matches;
    if Lifecycle.Run(world, Start(), events).rows[id].state == Expired {
      ExpiredMeansUnpaid(world, events, id);
    }
  }

  /**
   If the purchase transaction is confirmed on the configured network and meets the immutable terms,
   no run ever rejects the settlement of that watch for good.
   */
  lemma GoodSettlementNeverRejected(world: World, events: seq<Event>, id: Id, t: Transfer)
    requires Honest(world) && id in Lifecycle.Run(world, Start(), events).rows
    requires var r := Lifecycle.Run(world, Start(), events).rows[id];
             && r.expectedTx == Some(t.tx) && r.expectedNetwork == Some(world.network)
             && world.byId(t.tx) == Some(t) && MeetsTerms(r, t)
    ensures var r := Lifecycle.Run(world, Start(), events).rows[id];
            !(r.state == SettlementUnknown && r.terminal)
  {
    hide Lifecycle.Run, Honest, Covered, Paid, Activated;
    ReachableRow(world, events, id);
  }

  /**
   A watch sold with decoded terms is active only by the one confirmed payment those terms name, from
   the block that holds it, inside the signed validity window.
   */
  lemma ActivationIsDetermined(world: World, events: seq<Event>, id: Id)
    requires Honest(world) && id in Lifecycle.Run(world, Start(), events).rows
    requires var r := Lifecycle.Run(world, Start(), events).rows[id]; r.activationRound.Some? && r.terms.Some?
    ensures var r := Lifecycle.Run(world, Start(), events).rows[id];
            && r.service.Some? && r.expectedTx == Some(r.service.value.tx)
            && r.expectedNetwork == Some(r.service.value.network)
            && world.byId(r.service.value.tx).Some?
            && r.activationRound == Some(world.byId(r.service.value.tx).value.round)
            && r.terms.value.firstValid <= r.activationRound.value <= r.terms.value.lastValid
  {
    hide Lifecycle.Run, Honest, Covered, Paid, NeverPaid;
    ReachableRow(world, events, id);
  }

  lemma {:induction false} RunSplits(world: World, s: State, a: seq<Event>, b: seq<Event>)
    ensures Lifecycle.Run(world, s, a + b) == Lifecycle.Run(world, Lifecycle.Run(world, s, a), b)
    decreases |a|
  {
    hide Step;
    if a == [] {
      assert a + b == b;
    } else {
      assert (a + b)[0] == a[0] && (a + b)[1..] == a[1..] + b;
      RunSplits(world, Step(world, s, a[0]), a[1..], b);
    }
  }

  /**
   Recovery is confluent. Take any history in which the watch was sold with terms, and continue it in
   any two ways: with or without crashes, activated by the hook or by the reconciler. If both end
   activated, they agree on the service payment, its network, the activation round, and the round from
   which scanning started.
   */
  lemma RecoveryIsConfluent(world: World, history: seq<Event>, one: seq<Event>, other: seq<Event>, id: Id)
    requires Honest(world) && id in Lifecycle.Run(world, Start(), history).rows
    requires Lifecycle.Run(world, Start(), history).rows[id].terms.Some?
    requires var a, b := Lifecycle.Run(world, Start(), history + one).rows, Lifecycle.Run(world, Start(), history + other).rows;
             id in a && id in b && a[id].activationRound.Some? && b[id].activationRound.Some?
    ensures var a, b := Lifecycle.Run(world, Start(), history + one).rows[id], Lifecycle.Run(world, Start(), history + other).rows[id];
            && a.service.Some? && b.service.Some?
            && a.service.value.tx == b.service.value.tx && a.service.value.network == b.service.value.network
            && a.activationRound == b.activationRound
            && FirstScanRound(world, history + one, id) == FirstScanRound(world, history + other, id) == a.activationRound
            && a.terms.Some? && a.terms.value.firstValid <= a.activationRound.value <= a.terms.value.lastValid
  {
    hide Lifecycle.Run, Honest, WellFormed, FirstScanRound;
    SoldTerms(world, history, one, id);
    SoldTerms(world, history, other, id);
    ActivationIsDetermined(world, history + one, id);
    ActivationIsDetermined(world, history + other, id);
    ScanStartsAtActivation(world, history + one, id);
    ScanStartsAtActivation(world, history + other, id);
  }

  /** Terms and the transaction they name never change again. */
  lemma SoldTerms(world: World, history: seq<Event>, more: seq<Event>, id: Id)
    requires Honest(world) && id in Lifecycle.Run(world, Start(), history).rows
    requires Lifecycle.Run(world, Start(), history).rows[id].terms.Some?
    ensures id in Lifecycle.Run(world, Start(), history + more).rows
    ensures var r, later := Lifecycle.Run(world, Start(), history).rows[id], Lifecycle.Run(world, Start(), history + more).rows[id];
            && later.terms == r.terms && r.expectedTx.Some? && later.expectedTx == r.expectedTx
            && r.expectedNetwork.Some? && later.expectedNetwork == r.expectedNetwork
  {
    hide Lifecycle.Run, Honest, WellFormed, Covered, Paid, NeverPaid, Activated;
    var s := Lifecycle.Run(world, Start(), history);
    ReachableRow(world, history, id);
    NothingOpen(world.cfg);
    RunEvolves(world, Start(), history);
    RunSplits(world, Start(), history, more);
    RunEvolves(world, s, more);
  }

  /**
   The two activation paths leave the same row except, at most, for the payer they note: the hook
   keeps what the facilitator reported, the reconciler what the chain shows.
   */
  lemma PathsDifferOnlyInPayer(r: Row, hook: Evidence, found: Transfer, network: string, id: Id, at: int)
    requires WellFormed(r) && hook.tx == found.tx && hook.network == network && EvidenceFits(r, hook)
    requires r.expectedPayer == Some(found.sender)
    ensures var byHook := UpdateRow(Activate(id, hook, Some(found.round), at), r);
            var byProof := UpdateRow(Activate(id, Evidence(found.tx, network, Some(found.sender)), Some(found.round), at), r);
            && byHook == (if byProof.service == r.service then byProof else byProof.(service := Some(hook)))
            && (Unsettled(r) && !r.terminal ==> (byHook == byProof <==> hook.payer == Some(found.sender)))
  {
  }

  /** A restart keeps every row, fills in missing budgets of open ones, and starts with no work at all. */
  lemma RestartKeepsRows(world: World, s: State)
    ensures var later := Step(world, s, Crash);
            && later.rows.Keys == s.rows.Keys
            && (forall id <- s.rows :: later.rows[id] == if Open(s.rows[id]) && s.rows[id].budget.None?
                                                         then s.rows[id].(budget := Some(world.cfg.workBudget)) else s.rows[id])
            && later.turns == map[] && later.listed == {} && later.scanOf == map[] && later.proofOf == map[]
            && later.cache == map[] && later.shared == map[]
  {
  }

  // ---- Sharing and caching -----------------------------------------------------------------

  /** The page a turn would get by fetching it itself. */
  function OwnPage(world: World, turn: Turn, raw: RawPage): Result<Page>
    requires turn.pc.AwaitPage?
  {
    var q := turn.pc.key.query;
    ParsePage(raw, q.minRound, q.maxRound, turn.pc.w.spec, world.variant)
  }

  /** The page came from an honest body that a watch with the same request had validated. */
  ghost predicate MadeFrom(world: World, key: Key, page: Page, body: RawPage, sharer: Spec) {
    && HonestPage(world, key, body) && Canonical(sharer.amount)
    && BuildQuery(sharer, world.variant, key.query.minRound, key.query.maxRound) == Ok(key.query)
    && ParsePage(body, key.query.minRound, key.query.maxRound, sharer, world.variant) == Ok(page)
  }

  /** What the turn asked for is its own request. */
  ghost predicate AsksFor(world: World, turn: Turn)
    requires turn.pc.AwaitPage?
  {
    var q := turn.pc.key.query;
    Canonical(turn.pc.w.spec.amount) && BuildQuery(turn.pc.w.spec, world.variant, q.minRound, q.maxRound) == Ok(q)
  }

  lemma PcAsksFor(world: World, s: State, turn: Turn)
    requires turn.pc.AwaitPage? && PcSound(world, s.rows, s.scans, s.proofs, turn.pc) && Canonical(turn.pc.w.spec.amount)
    ensures AsksFor(world, turn)
  {
    hide Snapshot, PageSound;
    QueryWindow(world, turn.pc.w, turn.pc.key.query, s.scans[turn.pc.session]);
  }

  /** Fetching the sharer's body itself, a turn gets the very page it was handed. */
  lemma SharersBodyParses(world: World, turn: Turn, page: Page, body: RawPage, sharer: Spec)
    requires turn.pc.AwaitPage? && AsksFor(world, turn) && MadeFrom(world, turn.pc.key, page, body, sharer)
    ensures OwnPage(world, turn, body) == Ok(page)
  {
    hide HonestPage, ParsePage;
    var q := turn.pc.key.query;
    if world.variant != A { AdmittedAmountsAgree(sharer, turn.pc.w.spec, world.variant, q.minRound, q.maxRound); }
    SharingIsTransparent(body, q.minRound, q.maxRound, sharer, turn.pc.w.spec, world.variant);
  }

  lemma SameBody(world: World, key: Key, a: RawPage, b: RawPage)
    requires Honest(world) && HonestPage(world, key, a) && HonestPage(world, key, b)
    requires a.currentRound.Present? && key.query.maxRound <= a.currentRound.value
    requires b.currentRound.Present? && key.query.maxRound <= b.currentRound.value
    ensures a.items == b.items && TokenSent(a.next) == TokenSent(b.next)
  {
    hide Honest;
    var q := key.query;
    var i: nat :| i < |world.pages(q)| && key.token == PageToken(world, q, i)
      && a.items == world.pages(q)[i] && TokenSent(a.next) == NextPageToken(world, q, i);
    var j: nat :| j < |world.pages(q)| && key.token == PageToken(world, q, j)
      && b.items == world.pages(q)[j] && TokenSent(b.next) == NextPageToken(world, q, j);
    PageTokenInjective(world, q, i, j);
  }

  /** Two bodies with the same items and continuation differ, once parsed, in their current round alone. */
  lemma SameItemsParse(a: RawPage, b: RawPage, minRound: nat, maxRound: nat, spec: Spec, variant: Variant)
    requires a.items == b.items && TokenSent(a.next) == TokenSent(b.next) && SafeRound(b.currentRound)
    requires ParsePage(a, minRound, maxRound, spec, variant).Ok?
    ensures ParsePage(b, minRound, maxRound, spec, variant)
         == Ok(ParsePage(a, minRound, maxRound, spec, variant).value.(currentRound := b.currentRound.value))
  {
  }

  lemma CoveringBody(body: RawPage, minRound: nat, maxRound: nat, spec: Spec, variant: Variant)
    requires ParsePage(body, minRound, maxRound, spec, variant).Ok?
    ensures SafeRound(body.currentRound) && ParsePage(body, minRound, maxRound, spec, variant).value.currentRound == body.currentRound.value
  {
  }

  /**
   A turn that takes a cached or shared page does exactly what it would do if it fetched the page itself, now or
   later: its own fetch succeeds, and gives the same match, continuation, advance or failure, and the same state.
   */
  lemma SharedPageDecidesTheSame(world: World, s: State, t: nat, turn: Turn, held: Page, body: RawPage, sharer: Spec, raw: RawPage)
    requires Honest(world) && Inv(world, s) && turn.pc.AwaitPage? && Canonical(turn.pc.w.spec.amount)
    requires PcSound(world, s.rows, s.scans, s.proofs, turn.pc) && MadeFrom(world, turn.pc.key, held, body, sharer)
    requires HonestPage(world, turn.pc.key, raw) && SafeRound(raw.currentRound)
    requires turn.pc.key.query.maxRound <= raw.currentRound.value && turn.pc.key.query.maxRound <= held.currentRound
    ensures OwnPage(world, turn, raw).Ok?
    ensures Consume(world, s, t, turn, held) == Consume(world, s, t, turn, OwnPage(world, turn, raw).value)
  {
    hide Honest, Inv, PageSound, Consume, BuildQuery, Snapshot;
    var w, session, key := turn.pc.w, turn.pc.session, turn.pc.key;
    PcAsksFor(world, s, turn);
    SharersBodyParses(world, turn, held, body, sharer);
    CoveringBody(body, key.query.minRound, key.query.maxRound, w.spec, world.variant);
    hide ParsePage;
    SameBody(world, key, body, raw);
    SameItemsParse(body, raw, key.query.minRound, key.query.maxRound, w.spec, world.variant);
    QueryWindow(world, w, key.query, s.scans[session]);
    SameConsumption(world, s, t, turn, held, OwnPage(world, turn, raw).value);
  }

  // ---- Whole sweeps with and without sharing -----------------------------------------------

  /** The turn takes a page of its sweep; the other run fetches the body that page came from. */
  ghost predicate Refetches(world: World, s: State, e: Event, f: Event) {
    && e.PageArrives? && e.source.FromSweep? && f.PageArrives? && f.turn == e.turn && f.source.Fetched? && !f.source.kept
    && (e.turn in s.turns && s.turns[e.turn].pc.AwaitPage? ==>
          var turn := s.turns[e.turn];
          && AsksFor(world, turn) && (turn.sweep, turn.pc.key) in s.shared
          && exists sharer :: MadeFrom(world, turn.pc.key, s.shared[(turn.sweep, turn.pc.key)], f.source.raw, sharer))
  }

  /** The same events, except that some shared pages are fetched again. */
  ghost predicate Alike(world: World, s: State, events: seq<Event>, others: seq<Event>)
    decreases |events|
  {
    if events == [] then others == []
    else
      && others != [] && (events[0] == others[0] || Refetches(world, s, events[0], others[0]))
      && Alike(world, Step(world, s, events[0]), events[1..], others[1..])
  }

  lemma RefetchStep(world: World, s: State, e: Event, f: Event)
    requires Refetches(world, s, e, f)
    ensures Step(world, s, e) == Step(world, s, f)
  {
    hide Consume, HonestPage, ParsePage, Suspend, BuildQuery;
    if e.turn in s.turns && s.turns[e.turn].pc.AwaitPage? {
      var turn := s.turns[e.turn];
      var page := s.shared[(turn.sweep, turn.pc.key)];
      var sharer :| MadeFrom(world, turn.pc.key, page, f.source.raw, sharer);
      SharersBodyParses(world, turn, page, f.source.raw, sharer);
      assert s.shared[(turn.sweep, turn.pc.key) := page] == s.shared;
      RefetchPage(world, s, e.turn, turn, page, f.source.raw);
    } else {
    }
  }

  lemma RefetchPage(world: World, s: State, t: nat, turn: Turn, page: Page, raw: RawPage)
    requires turn.pc.AwaitPage? && HonestPage(world, turn.pc.key, raw) && OwnPage(world, turn, raw) == Ok(page)
    requires (turn.sweep, turn.pc.key) in s.shared && s.shared[(turn.sweep, turn.pc.key)] == page
    ensures StepPage(world, s, t, turn, FromSweep) == StepPage(world, s, t, turn, Fetched(raw, false))
  {
    hide Consume, HonestPage, ParsePage, Suspend;
    assert s.shared[(turn.sweep, turn.pc.key) := page] == s.shared;
  }

  /** Sharing within sweeps is invisible over whole runs: fetching every shared page again ends in the same state. */
  lemma {:induction false} SharingIsInvisible(world: World, s: State, events: seq<Event>, others: seq<Event>)
    requires Alike(world, s, events, others)
    ensures Lifecycle.Run(world, s, events) == Lifecycle.Run(world, s, others)
    decreases |events|
  {
    hide Step, Refetches;
    if events != [] {
      if events[0] != others[0] { RefetchStep(world, s, events[0], others[0]); }
      SharingIsInvisible(world, Step(world, s, events[0]), events[1..], others[1..]);
    }
  }

  /** A page matters only for its transactions, its continuation, and whether it covers the window. */
  lemma SameConsumption(world: World, s: State, t: nat, turn: Turn, a: Page, b: Page)
    requires turn.pc.AwaitPage? && turn.pc.session in s.scans
    requires a.transactions == b.transactions && a.next == b.next
    requires s.scans[turn.pc.session].maxRound <= a.currentRound && s.scans[turn.pc.session].maxRound <= b.currentRound
    ensures Consume(world, s, t, turn, a) == Consume(world, s, t, turn, b)
  {
    hide Finish, Suspend, ForgetScan, PutScan, CompleteWindow, FirstMatch, Store;
    var w, scan := turn.pc.w, s.scans[turn.pc.session];
    if w.scanAfter.None? {
    } else if FirstMatch(a.transactions, w).Some? {
    } else if a.next.Some? {
      if a.next == scan.next || a.next.value in scan.seen {
      } else {
      }
    } else {
    }
  }
}
