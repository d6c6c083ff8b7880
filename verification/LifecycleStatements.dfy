/**
 The workers touch the table through its statements only, so every law of the store holds over whole
 runs of the machine: rows only evolve, closed rows are frozen, capacity and budgets hold.
 */
module LifecycleStatements {
  import opened Common
  import opened Watches
  import opened WatchLaws
  import opened ScanQueries
  import opened Chain
  import opened Lifecycle
  import opened PollingSafety

  /** A statement that neither creates a watch nor activates one. */
  predicate Plain(op: Op) {
    !op.Prepare? && !op.Activate?
  }

  /** The later table is the earlier one after some sequence of plain statements. */
  ghost predicate Stmts(cfg: Config, rows: Rows, later: Rows) {
    exists ops: seq<Op> :: (forall op <- ops :: Plain(op)) && later == Watches.Run(cfg, rows, ops)
  }

  /** Plain statements, or exactly one activation. */
  ghost predicate Touched(cfg: Config, rows: Rows, later: Rows) {
    Stmts(cfg, rows, later) || exists op: Op :: op.Activate? && later == Apply(cfg, rows, op)
  }

  /** Any statements. */
  ghost predicate Ran(cfg: Config, rows: Rows, later: Rows) {
    exists ops :: later == Watches.Run(cfg, rows, ops)
  }

  lemma NoStmt(cfg: Config, rows: Rows)
    ensures Stmts(cfg, rows, rows)
  {
    assert rows == Watches.Run(cfg, rows, []);
  }

  lemma RunOneStmt(cfg: Config, rows: Rows, op: Op)
    ensures Watches.Run(cfg, rows, [op]) == Apply(cfg, rows, op)
  {
    hide Apply;
    assert Watches.Run(cfg, Apply(cfg, rows, op), []) == Apply(cfg, rows, op);
    assert [op][1..] == [];
  }

  lemma OneStmt(cfg: Config, rows: Rows, op: Op)
    requires Plain(op)
    ensures Stmts(cfg, rows, Apply(cfg, rows, op))
  {
    hide Apply, Watches.Run;
    RunOneStmt(cfg, rows, op);
    assert forall o <- [op] :: Plain(o);
  }

  lemma {:induction false} RunAppend(cfg: Config, rows: Rows, a: seq<Op>, b: seq<Op>)
    ensures Watches.Run(cfg, rows, a + b) == Watches.Run(cfg, Watches.Run(cfg, rows, a), b)
    decreases |a|
  {
    hide Apply;
    if a == [] {
      assert a + b == b;
    } else {
      assert (a + b)[0] == a[0] && (a + b)[1..] == a[1..] + b;
      RunAppend(cfg, Apply(cfg, rows, a[0]), a[1..], b);
    }
  }

  lemma StmtsCompose(cfg: Config, rows: Rows, mid: Rows, later: Rows)
    requires Stmts(cfg, rows, mid) && Stmts(cfg, mid, later)
    ensures Stmts(cfg, rows, later)
  {
    hide Watches.Run;
    var a: seq<Op> :| (forall op <- a :: Plain(op)) && mid == Watches.Run(cfg, rows, a);
    var b: seq<Op> :| (forall op <- b :: Plain(op)) && later == Watches.Run(cfg, mid, b);
    RunAppend(cfg, rows, a, b);
    assert forall op <- a + b :: Plain(op);
  }

  /** One statement and then more. */
  lemma StmtsThen(cfg: Config, rows: Rows, op: Op, later: Rows)
    requires Plain(op) && Stmts(cfg, Apply(cfg, rows, op), later)
    ensures Stmts(cfg, rows, later)
  {
    hide Stmts, Apply;
    OneStmt(cfg, rows, op);
    StmtsCompose(cfg, rows, Apply(cfg, rows, op), later);
  }

  lemma TouchedRan(cfg: Config, rows: Rows, later: Rows)
    requires Touched(cfg, rows, later)
    ensures Ran(cfg, rows, later)
  {
    hide Apply, Watches.Run;
    if !Stmts(cfg, rows, later) {
      var op: Op :| op.Activate? && later == Apply(cfg, rows, op);
      RunOneStmt(cfg, rows, op);
    }
  }

  lemma RanCompose(cfg: Config, rows: Rows, mid: Rows, later: Rows)
    requires Ran(cfg, rows, mid) && Ran(cfg, mid, later)
    ensures Ran(cfg, rows, later)
  {
    hide Watches.Run;
    var a :| mid == Watches.Run(cfg, rows, a);
    var b :| later == Watches.Run(cfg, mid, b);
    RunAppend(cfg, rows, a, b);
  }

  // ---- Segment by segment ------------------------------------------------------------------

  lemma AfterCheckpointRows(world: World, s: State, t: nat, turn: Turn, w: Row)
    requires Pollable(w)
    ensures Stmts(world.cfg, s.rows, AfterCheckpoint(world, s, t, turn, w).rows)
  {
    hide Stmts, Apply, Store, ForgetScan, ForgetProof, PutScan, PutProof, Finish, Suspend, Ask, Without, DropStaleScan, DropStaleProof, RequestPage, RequestAbsence, OpenUnit;
    NoStmt(world.cfg, s.rows);
    if w.closing.Some? && w.closing.value <= w.scanAfter.value {
      OneStmt(world.cfg, s.rows, MarkExpired(w.id, w.scanAfter.value, w.closing.value));
    } else {
      var s1 := DropStaleScan(s, w.id, Some(w));
      if w.id in s1.scanOf {
      } else {
      }
    }
  }

  /** Once the claim statement has run, a polling turn's first segment adds plain statements only. */
  lemma BeginPollCharges(world: World, s: State, t: nat, sweep: nat, w: Row, at: int, now: int)
    requires Pollable(w)
    ensures Stmts(world.cfg, Apply(world.cfg, s.rows, Claim(w.id, PollClaim(w), at)), StepBeginPoll(world, s, t, sweep, w, at, now).rows)
  {
    hide Stmts, Apply, Store, ForgetScan, ForgetProof, PutScan, PutProof, Finish, Suspend, Ask, Without, DropStaleScan, DropStaleProof, RequestPage, RequestAbsence, OpenUnit, AfterCheckpoint, OutcomeOf;
    var s1 := Store(world, s, Claim(w.id, PollClaim(w), at));
    NoStmt(world.cfg, s1.rows);
    match ClaimOutcomeOf(s.rows, w.id, PollClaim(w), at) {
      case Exhausted =>
      case Inactive =>
      case Claimed =>
        var turn, s2 := NewTurn(s1, w.id, sweep, FailingPoll(w)), OpenUnit(s1, w.id);
        if w.closing.None? && w.expiresAt.value <= now {
        } else {
          AfterCheckpointRows(world, s2, t, turn, w);
        }
    }
  }

  lemma BeginPollRows(world: World, s: State, t: nat, sweep: nat, w: Row, at: int, now: int)
    ensures Stmts(world.cfg, s.rows, StepBeginPoll(world, s, t, sweep, w, at, now).rows)
  {
    if Pollable(w) {
      BeginPollCharges(world, s, t, sweep, w, at, now);
      hide Stmts, Apply, StepBeginPoll;
      StmtsThen(world.cfg, s.rows, Claim(w.id, PollClaim(w), at), StepBeginPoll(world, s, t, sweep, w, at, now).rows);
    } else {
      NoStmt(world.cfg, s.rows);
    }
  }

  lemma BlockRows(world: World, s: State, t: nat, turn: Turn)
    requires turn.pc.AwaitBlock?
    ensures Stmts(world.cfg, s.rows, StepBlock(world, s, t, turn).rows)
  {
    hide Stmts, Apply, Store, ForgetScan, ForgetProof, PutScan, PutProof, Finish, Suspend, Ask, Without, DropStaleScan, DropStaleProof, RequestPage, RequestAbsence, OpenUnit, AfterCheckpoint;
    var w, round := turn.pc.w, turn.pc.round;
    NoStmt(world.cfg, s.rows);
    if !Pollable(w) {
    } else if world.time(round) * 1000 < w.expiresAt.value {
      AfterCheckpointRows(world, s, t, turn, w);
    } else {
      var op := SetClosing(w.id, round);
      var s1 := Store(world, s, op);
      OneStmt(world.cfg, s.rows, op);
      if w.id in s1.rows && Pollable(s1.rows[w.id]) {
        AfterCheckpointRows(world, s1, t, turn, s1.rows[w.id]);
        StmtsThen(world.cfg, s.rows, op, AfterCheckpoint(world, s1, t, turn, s1.rows[w.id]).rows);
      } else {
      }
    }
  }

  lemma CompleteWindowRows(world: World, s: State, w: Row, maxRound: nat)
    requires w.scanAfter.Some?
    ensures Stmts(world.cfg, s.rows, CompleteWindow(world, s, w, maxRound).rows)
  {
    hide Stmts, Apply, Store, ForgetScan, ForgetProof, PutScan, PutProof, Finish, Suspend, Ask, Without, DropStaleScan, DropStaleProof, RequestPage, RequestAbsence, OpenUnit, Advances;
    var op := AdvanceScan(w.id, w.scanAfter.value, maxRound);
    var s1 := Store(world, s, op);
    OneStmt(world.cfg, s.rows, op);
    if !Advances(s.rows, w.id, w.scanAfter.value, maxRound) || w.id !in s1.rows {
    } else {
      var updated := s1.rows[w.id];
      if updated.closing.Some? && updated.scanAfter == updated.closing {
        var expire := MarkExpired(w.id, updated.scanAfter.value, updated.closing.value);
        OneStmt(world.cfg, s1.rows, expire);
        StmtsThen(world.cfg, s.rows, op, Apply(world.cfg, s1.rows, expire));
      } else {
      }
    }
  }

  lemma ConsumeRows(world: World, s: State, t: nat, turn: Turn, page: Page)
    requires turn.pc.AwaitPage?
    ensures Stmts(world.cfg, s.rows, Consume(world, s, t, turn, page).rows)
  {
    hide Stmts, Apply, Store, ForgetScan, ForgetProof, PutScan, PutProof, Finish, Suspend, Ask, Without, DropStaleScan, DropStaleProof, RequestPage, RequestAbsence, OpenUnit, CompleteWindow, FirstMatch;
    var w, session := turn.pc.w, turn.pc.session;
    NoStmt(world.cfg, s.rows);
    if session !in s.scans || w.scanAfter.None? {
    } else {
      var scan, found := s.scans[session], FirstMatch(page.transactions, w);
      if page.currentRound < scan.maxRound {
      } else if found.Some? {
        OneStmt(world.cfg, s.rows, MarkMatched(w.id, found.value.tx, found.value.round));
      } else if page.next.Some? {
        if page.next == scan.next || page.next.value in scan.seen {
        } else {
        }
      } else {
        CompleteWindowRows(world, ForgetScan(s, w.id), w, scan.maxRound);
      }
    }
  }

  lemma PageRows(world: World, s: State, t: nat, turn: Turn, source: Source)
    requires turn.pc.AwaitPage?
    ensures Stmts(world.cfg, s.rows, StepPage(world, s, t, turn, source).rows)
  {
    hide Stmts, Consume, HonestPage, ParsePage;
    var w, key := turn.pc.w, turn.pc.key;
    NoStmt(world.cfg, s.rows);
    match source {
      case Held =>
        if turn.pc.held.Some? {
          ConsumeRows(world, s, t, turn, turn.pc.held.value);
        } else {
        }
      case FromSweep =>
        if (turn.sweep, key) in s.shared {
          ConsumeRows(world, s, t, turn, s.shared[(turn.sweep, key)]);
        } else {
        }
      case Fetched(raw, kept) =>
        if !HonestPage(world, key, raw) {
        } else {
          var page := ParsePage(raw, key.query.minRound, key.query.maxRound, w.spec, world.variant);
          if page.Thrown? {
          } else {
            var cache := if kept && key.query.maxRound <= page.value.currentRound then s.cache[key := page.value] else s.cache;
            ConsumeRows(world, s.(shared := s.shared[(turn.sweep, key) := page.value], cache := cache), t, turn, page.value);
          }
        }
    }
  }

  lemma ClaimedReconcileRows(world: World, s: State, t: nat, w: Row, nextAt: int)
    ensures Stmts(world.cfg, s.rows, ClaimedReconcile(world, s, t, w, nextAt).rows)
  {
    hide Stmts, Apply, Store, ForgetScan, ForgetProof, PutScan, PutProof, Finish, Suspend, Ask, Without, DropStaleScan, DropStaleProof, RequestPage, RequestAbsence, OpenUnit, HasTerms;
    NoStmt(world.cfg, s.rows);
    OneStmt(world.cfg, s.rows, Defer(w.id, nextAt));
    var turn, s1 := NewTurn(s, w.id, 0, FailingProof(w)), OpenUnit(s, w.id);
    if !HasTerms(w) {
    } else {
      var s2 := DropStaleProof(s1, w.id, Some(w));
      if w.id in s2.proofOf {
      } else {
      }
    }
  }

  /** The same for a reconciliation turn. */
  lemma BeginReconcileCharges(world: World, s: State, t: nat, w: Row, at: int, nextAt: int)
    requires Truthy(w.expectedTx)
    ensures Stmts(world.cfg, Apply(world.cfg, s.rows, Claim(w.id, ReconcileClaim(w), at)), StepBeginReconcile(world, s, t, w, at, nextAt).rows)
  {
    hide Stmts, Apply, Store, ForgetScan, ForgetProof, PutScan, PutProof, Finish, Suspend, Ask, Without, DropStaleScan, DropStaleProof, RequestPage, RequestAbsence, OpenUnit, ClaimedReconcile, OutcomeOf;
    var s1 := Store(world, s, Claim(w.id, ReconcileClaim(w), at));
    NoStmt(world.cfg, s1.rows);
    match ClaimOutcomeOf(s.rows, w.id, ReconcileClaim(w), at) {
      case Exhausted =>
      case Inactive =>
      case Claimed => ClaimedReconcileRows(world, s1, t, w, nextAt);
    }
  }

  function ReconcileClaim(w: Row): WorkClaim
    requires Truthy(w.expectedTx)
  {
    Reconciliation(w.expectedTx.value, w.attempts)
  }

  lemma BeginReconcileRows(world: World, s: State, t: nat, w: Row, at: int, nextAt: int)
    ensures Stmts(world.cfg, s.rows, StepBeginReconcile(world, s, t, w, at, nextAt).rows)
  {
    if Truthy(w.expectedTx) {
      BeginReconcileCharges(world, s, t, w, at, nextAt);
      hide Stmts, Apply, StepBeginReconcile;
      StmtsThen(world.cfg, s.rows, Claim(w.id, ReconcileClaim(w), at), StepBeginReconcile(world, s, t, w, at, nextAt).rows);
    } else {
      NoStmt(world.cfg, s.rows);
    }
  }

  lemma ApplyConfirmedRows(world: World, s: State, t: nat, turn: Turn, found: Transfer, at: int)
    requires !turn.pc.AwaitActivation?
    ensures Touched(world.cfg, s.rows, ApplyConfirmed(world, s, t, turn, found, at).rows)
  {
    hide Stmts, Apply, Store, ForgetScan, ForgetProof, PutScan, PutProof, Finish, Suspend, Ask, Without, DropStaleScan, DropStaleProof, RequestPage, RequestAbsence, OpenUnit, ActivationThrows, MeetsTerms;
    var w := turn.pc.w;
    NoStmt(world.cfg, s.rows);
    if w.expectedTx == Some(found.tx) && w.expectedNetwork == Some(world.network) && MeetsTerms(w, found) {
      var op := Activate(w.id, Evidence(found.tx, world.network, Some(found.sender)), Some(found.round), at);
      if ActivationThrows(s.rows, op) {
      } else {
        assert op.Activate?;
      }
    } else {
      OneStmt(world.cfg, s.rows, MarkInvalid(w.id));
    }
  }

  lemma LookupRows(world: World, s: State, t: nat, turn: Turn, found: Option<Transfer>, at: int)
    requires turn.pc.AwaitLookup?
    ensures Touched(world.cfg, s.rows, StepLookup(world, s, t, turn, found, at).rows)
  {
    hide Stmts, Apply, Store, ForgetScan, ForgetProof, PutScan, PutProof, Finish, Suspend, Ask, Without, DropStaleScan, DropStaleProof, RequestPage, RequestAbsence, OpenUnit, ApplyConfirmed, HonestLookup;
    var w := turn.pc.w;
    NoStmt(world.cfg, s.rows);
    if w.expectedTx.None? || !HonestLookup(world, w.expectedTx.value, found) {
    } else if found.Some? {
      ApplyConfirmedRows(world, s, t, turn, found.value, at);
    } else {
    }
  }

  lemma RoundRows(world: World, s: State, t: nat, turn: Turn, round: nat, session: nat, nextAt: int)
    requires turn.pc.AwaitRound?
    ensures Stmts(world.cfg, s.rows, StepRound(world, s, t, turn, round, session, nextAt).rows)
  {
    hide Stmts, Apply, Store, ForgetScan, ForgetProof, PutScan, PutProof, Finish, Suspend, Ask, Without, DropStaleScan, DropStaleProof, RequestPage, RequestAbsence, OpenUnit;
    var w := turn.pc.w;
    NoStmt(world.cfg, s.rows);
    if !HasTerms(w) {
    } else if round <= w.terms.value.lastValid {
      OneStmt(world.cfg, s.rows, Defer(w.id, nextAt));
    } else {
      var proof := ProofSession(w.id, w.expectedTx.value, None, {}, None, 0);
    }
  }

  lemma AbsenceRows(world: World, s: State, t: nat, turn: Turn, page: AbsencePage, at: int, nextAt: int)
    requires turn.pc.AwaitAbsence?
    ensures Touched(world.cfg, s.rows, StepAbsence(world, s, t, turn, page, at, nextAt).rows)
  {
    hide Stmts, Apply, Store, ForgetScan, ForgetProof, PutScan, PutProof, Finish, Suspend, Ask, Without, DropStaleScan, DropStaleProof, RequestPage, RequestAbsence, OpenUnit, ApplyConfirmed, HonestAbsence, Coverage;
    var w, session, token := turn.pc.w, turn.pc.session, turn.pc.token;
    NoStmt(world.cfg, s.rows);
    if session !in s.proofs || !HasTerms(w) || !HonestAbsence(world, w.expectedTx.value, token, page) {
    } else {
      var coverage := Coverage(s.proofs[session].coverage, page.currentRound);
      var proof := s.proofs[session].(coverage := Some(coverage));
      if page.items != [] {
        ApplyConfirmedRows(world, PutProof(s, session, proof), t, turn, page.items[0], at);
      } else if page.next.Some? {
        if page.next == proof.next || page.next.value in proof.seen {
        } else {
          OneStmt(world.cfg, s.rows, Defer(w.id, nextAt));
        }
      } else if coverage <= w.terms.value.lastValid {
      } else {
        OneStmt(world.cfg, s.rows, MarkInvalid(w.id));
      }
    }
  }

  lemma PollTurnRows(world: World, s: State, e: Event, t: nat, turn: Turn)
    requires e.TipArrives? || e.BlockArrives? || e.SweepTipArrives? || e.PageArrives? || e.PollFails?
    ensures Touched(world.cfg, s.rows, StepTurn(world, s, e, t, turn).rows)
  {
    hide Stmts, Apply, Store, ForgetScan, ForgetProof, PutScan, PutProof, Finish, Suspend, Ask, Without, DropStaleScan, DropStaleProof, RequestPage, RequestAbsence, OpenUnit, StepBlock, StepSweepTip, StepPage, StepLookup, StepRound, StepAbsence, HonestLookup, MeetsTerms;
    NoStmt(world.cfg, s.rows);
    match e {
      case TipArrives(_, round) =>
        if turn.pc.AwaitTip? { AskRuns(s, t, turn, AwaitBlock(turn.pc.w, round), MAX_POLLING_REQUESTS); }
      case BlockArrives(_) => if turn.pc.AwaitBlock? { BlockRows(world, s, t, turn); }
      case PageArrives(_, source) => if turn.pc.AwaitPage? { PageRows(world, s, t, turn, source); }
      case PollFails(_, f, retryAt) =>
        if !turn.pc.AwaitActivation? { OneStmt(world.cfg, s.rows, RecordFailure(turn.pc.w.id, f, retryAt)); }
      case _ =>
    }
  }

  lemma TurnRows(world: World, s: State, e: Event, t: nat, turn: Turn)
    ensures Touched(world.cfg, s.rows, StepTurn(world, s, e, t, turn).rows)
  {
    hide Stmts, Apply, Store, ForgetScan, ForgetProof, PutScan, PutProof, Finish, Suspend, Ask, Without, DropStaleScan, DropStaleProof, RequestPage, RequestAbsence, OpenUnit, StepBlock, StepSweepTip, StepPage, StepLookup, StepRound, StepAbsence, HonestLookup, MeetsTerms, StepActivation;
    NoStmt(world.cfg, s.rows);
    match e {
      case LookupArrives(_, found, at) => if turn.pc.AwaitLookup? { LookupRows(world, s, t, turn, found, at); }
      case RoundArrives(_, round, session, nextAt) =>
        if turn.pc.AwaitRound? { RoundRows(world, s, t, turn, round, session, nextAt); }
      case AbsenceArrives(_, page, at, nextAt) =>
        if turn.pc.AwaitAbsence? { AbsenceRows(world, s, t, turn, page, at, nextAt); }
      case ProofFails(_, nextAt) =>
        if !turn.pc.AwaitActivation? { OneStmt(world.cfg, s.rows, Defer(turn.pc.w.id, nextAt)); }
      case ActivationLookup(_, found, at) => if turn.pc.AwaitActivation? { ActivationRows(world, s, t, turn, found, at); }
      case _ =>
        if e.TipArrives? || e.BlockArrives? || e.SweepTipArrives? || e.PageArrives? || e.PollFails? { PollTurnRows(world, s, e, t, turn); }
    }
  }

  lemma ActivationRows(world: World, s: State, t: nat, turn: Turn, found: Option<Transfer>, at: int)
    requires turn.pc.AwaitActivation?
    ensures Touched(world.cfg, s.rows, StepActivation(world, s, t, turn, found, at).rows)
  {
    hide Stmts, Apply, Store, ForgetScan, ForgetProof, PutScan, PutProof, Finish, Suspend, Ask, Without, DropStaleScan, DropStaleProof, RequestPage, RequestAbsence, OpenUnit, HonestLookup, MeetsTerms;
    var id, ev := turn.pc.watch, turn.pc.ev;
    NoStmt(world.cfg, s.rows);
    if !HonestLookup(world, ev.tx, found) {
    } else if found.None? || id !in s.rows {
    } else if found.value.tx == ev.tx && MeetsTerms(s.rows[id], found.value) {
      assert Activate(id, ev, Some(found.value.round), at).Activate?;
    } else {
      OneStmt(world.cfg, s.rows, MarkInvalid(id));
    }
  }

  /** A purchase is one Prepare statement, if it reaches the store at all. */
  lemma PrepareRows(world: World, s: State, e: Event)
    requires e.PrepareWatch?
    ensures var later := Step(world, s, e).rows;
            later == s.rows || later == Apply(world.cfg, s.rows, Prepare(e.id, e.spec, e.intent, e.at))
  {
    hide Apply, IntentSound;
  }

  lemma CrashRows(world: World, s: State)
    ensures Stmts(world.cfg, s.rows, StepCrash(world, s).rows)
  {
    hide Stmts, Apply;
    OneStmt(world.cfg, s.rows, RepairBudgets);
  }

  lemma ClientRows(world: World, s: State, e: Event)
    requires !e.PrepareWatch?
    ensures Touched(world.cfg, s.rows, StepClient(world, s, e).rows)
  {
    hide Stmts, Apply, Store, StepPrepare, CandidateAccepted;
    NoStmt(world.cfg, s.rows);
    match e {
      case SettlementFailed(id) => OneStmt(world.cfg, s.rows, MarkUnknown(id));
      case Settled(t, id, ev) => OneStmt(world.cfg, s.rows, RecordCandidate(id, ev));
      case ClearPollingFailure(id) => OneStmt(world.cfg, s.rows, ClearFailure(id));
      case _ =>
    }
  }

  lemma WorkerRows(world: World, s: State, e: Event)
    ensures Stmts(world.cfg, s.rows, StepWorker(world, s, e).rows)
  {
    hide Stmts, StepBeginPoll, StepBeginReconcile;
    NoStmt(world.cfg, s.rows);
    match e {
      case BeginPoll(t, sweep, w, at, now) => BeginPollRows(world, s, t, sweep, w, at, now);
      case BeginReconcile(t, w, at, nextAt) => BeginReconcileRows(world, s, t, w, at, nextAt);
      case _ =>
    }
  }

  lemma UpkeepRows(world: World, s: State, e: Event)
    ensures Stmts(world.cfg, s.rows, StepUpkeep(world, s, e).rows)
  {
    hide Stmts, DropStaleScan, DropStaleProof, StepCrash;
    NoStmt(world.cfg, s.rows);
    CrashRows(world, s);
  }

  /** Every other step changes the table by plain statements of the store or one activation, and in no other way. */
  lemma StepRows(world: World, s: State, e: Event)
    requires !e.PrepareWatch?
    ensures Touched(world.cfg, s.rows, Step(world, s, e).rows)
  {
    hide Stmts, StepClient, StepWorker, StepUpkeep, StepTurn;
    if OfClient(e) {
      ClientRows(world, s, e);
    } else if OfWorker(e) {
      WorkerRows(world, s, e);
    } else if OfUpkeep(e) {
      UpkeepRows(world, s, e);
    } else if e.turn in s.turns {
      TurnRows(world, s, e, e.turn, s.turns[e.turn]);
    } else {
      NoStmt(world.cfg, s.rows);
    }
  }

  lemma StepRan(world: World, s: State, e: Event)
    ensures Ran(world.cfg, s.rows, Step(world, s, e).rows)
  {
    hide Step, Apply, Watches.Run;
    var later := Step(world, s, e).rows;
    if e.PrepareWatch? {
      PrepareRows(world, s, e);
      NothingRan(world.cfg, s.rows);
      RunOneStmt(world.cfg, s.rows, Prepare(e.id, e.spec, e.intent, e.at));
    } else {
      StepRows(world, s, e);
      TouchedRan(world.cfg, s.rows, later);
    }
  }

  lemma {:induction false} RunRows(world: World, s: State, events: seq<Event>)
    ensures Ran(world.cfg, s.rows, Lifecycle.Run(world, s, events).rows)
    decreases |events|
  {
    hide Stmts, Touched, Ran, Step;
    if events == [] {
      NothingRan(world.cfg, s.rows);
    } else {
      var next := Step(world, s, events[0]);
      StepRan(world, s, events[0]);
      RunRows(world, next, events[1..]);
      RanCompose(world.cfg, s.rows, next.rows, Lifecycle.Run(world, s, events).rows);
    }
  }

  lemma NothingRan(cfg: Config, rows: Rows)
    ensures Ran(cfg, rows, rows)
  {
    assert Watches.Run(cfg, rows, []) == rows;
  }

  // ---- The store's laws, over runs of the machine -------------------------------------------

  lemma StepEvolves(world: World, s: State, e: Event)
    requires WellFormedTable(s.rows)
    ensures WellFormedTable(Step(world, s, e).rows) && TableEvolves(s.rows, Step(world, s, e).rows)
  {
    hide Watches.Run, Step, WellFormedTable, TableEvolves;
    StepRan(world, s, e);
    var ops :| Step(world, s, e).rows == Watches.Run(world.cfg, s.rows, ops);
    RunKeeps(world.cfg, s.rows, ops);
  }

  lemma RunEvolves(world: World, s: State, events: seq<Event>)
    requires WellFormedTable(s.rows)
    ensures WellFormedTable(Lifecycle.Run(world, s, events).rows)
    ensures TableEvolves(s.rows, Lifecycle.Run(world, s, events).rows)
  {
    hide Watches.Run, Lifecycle.Run, WellFormedTable, TableEvolves;
    RunRows(world, s, events);
    var later := Lifecycle.Run(world, s, events).rows;
    var ops :| later == Watches.Run(world.cfg, s.rows, ops);
    RunKeeps(world.cfg, s.rows, ops);
  }

  lemma NothingOpen(cfg: Config)
    ensures |OpenIds(Start().rows)| == 0 && WellFormedTable(Start().rows)
  {
    assert OpenIds(map[]) == {};
  }

  /** However clients, workers and crashes interleave, capacity holds. */
  lemma CapacityHolds(world: World, events: seq<Event>)
    ensures |OpenIds(Lifecycle.Run(world, Start(), events).rows)| <= world.cfg.maxOpen
  {
    hide Watches.Run, Lifecycle.Run, WellFormedTable, OpenIds;
    RunRows(world, Start(), events);
    NothingOpen(world.cfg);
    var later := Lifecycle.Run(world, Start(), events).rows;
    var ops :| later == Watches.Run(world.cfg, Start().rows, ops);
    OpenObligationsBounded(world.cfg, Start().rows, ops);
  }

  // ---- Payers ------------------------------------------------------------------------------

  lemma {:induction false} PayersKnownOverRun(cfg: Config, rows: Rows, ops: seq<Op>)
    requires WellFormedTable(rows) && PayersKnown(rows)
    requires forall op <- ops :: op.Prepare? ==> Truthy(PayerOfIntent(op.intent))
    ensures PayersKnown(Watches.Run(cfg, rows, ops))
    decreases |ops|
  {
    hide Apply, WellFormedTable, PayersKnown;
    if ops != [] {
      assert ops[0] in ops;
      ApplyKeeps(cfg, rows, ops[0]);
      PayersStayKnown(cfg, rows, ops[0]);
      PayersKnownOverRun(cfg, Apply(cfg, rows, ops[0]), ops[1..]);
    }
  }

  /** Statements in which every purchase names its payer keep the limit of every payer. */
  lemma StatementsKeepPayer(cfg: Config, rows: Rows, ops: seq<Op>, payer: string)
    requires WellFormedTable(rows) && PayersKnown(rows) && payer != ""
    requires |OpenIdsOf(rows, payer)| <= cfg.maxOpenPerPayer
    requires forall op <- ops :: op.Prepare? ==> Truthy(PayerOfIntent(op.intent))
    ensures var later := Watches.Run(cfg, rows, ops);
            PayersKnown(later) && |OpenIdsOf(later, payer)| <= cfg.maxOpenPerPayer
  {
    PayersKnownOverRun(cfg, rows, ops);
    PayerLimitHolds(cfg, rows, ops, payer);
  }

  predicate NamesPayer(e: Event) {
    e.PrepareWatch? ==> Truthy(PayerOfIntent(e.intent))
  }

  lemma StepKeepsPayer(world: World, s: State, e: Event, payer: string)
    requires WellFormedTable(s.rows) && PayersKnown(s.rows) && payer != "" && NamesPayer(e)
    requires |OpenIdsOf(s.rows, payer)| <= world.cfg.maxOpenPerPayer
    ensures var later := Step(world, s, e).rows;
            PayersKnown(later) && |OpenIdsOf(later, payer)| <= world.cfg.maxOpenPerPayer
  {
    hide Step, Apply, WellFormedTable, PayersKnown, OpenIdsOf, Watches.Run;
    var later := Step(world, s, e).rows;
    if e.PrepareWatch? {
      PrepareRows(world, s, e);
      if later != s.rows {
        var op := Prepare(e.id, e.spec, e.intent, e.at);
        RunOneStmt(world.cfg, s.rows, op);
        StatementsKeepPayer(world.cfg, s.rows, [op], payer);
      }
    } else {
      StepRows(world, s, e);
      if Stmts(world.cfg, s.rows, later) {
        var ops: seq<Op> :| (forall op <- ops :: Plain(op)) && later == Watches.Run(world.cfg, s.rows, ops);
        StatementsKeepPayer(world.cfg, s.rows, ops, payer);
      } else {
        var op: Op :| op.Activate? && later == Apply(world.cfg, s.rows, op);
        RunOneStmt(world.cfg, s.rows, op);
        StatementsKeepPayer(world.cfg, s.rows, [op], payer);
      }
    }
  }

  lemma {:induction false} RunKeepsPayer(world: World, s: State, events: seq<Event>, payer: string)
    requires WellFormedTable(s.rows) && PayersKnown(s.rows) && payer != ""
    requires forall e <- events :: NamesPayer(e)
    requires |OpenIdsOf(s.rows, payer)| <= world.cfg.maxOpenPerPayer
    ensures |OpenIdsOf(Lifecycle.Run(world, s, events).rows, payer)| <= world.cfg.maxOpenPerPayer
    decreases |events|
  {
    hide Step, WellFormedTable, PayersKnown, OpenIdsOf, TableEvolves;
    if events != [] {
      assert events[0] in events;
      StepKeepsPayer(world, s, events[0], payer);
      StepEvolves(world, s, events[0]);
      RunKeepsPayer(world, Step(world, s, events[0]), events[1..], payer);
    }
  }

  /** When every purchase names its payer, no payer ever exceeds the limit, however everything interleaves. */
  lemma PayerCapacityHolds(world: World, events: seq<Event>, payer: string)
    requires payer != "" && forall e <- events :: NamesPayer(e)
    ensures |OpenIdsOf(Lifecycle.Run(world, Start(), events).rows, payer)| <= world.cfg.maxOpenPerPayer
  {
    hide Lifecycle.Run;
    NothingOpen(world.cfg);
    assert OpenIdsOf(Start().rows, payer) == {};
    RunKeepsPayer(world, Start(), events, payer);
  }

  // ---- The budget closes every watch -------------------------------------------------------

  /** A turn that starts on a due watch, from a snapshot that still holds. */
  ghost predicate DueTurn(s: State, e: Event, id: Id) {
    && (e.BeginPoll? || e.BeginReconcile?) && e.turn !in s.turns && e.w in s.listed && e.w.id == id && id in s.rows
    && (e.BeginPoll? ==> Pollable(e.w) && Eligible(s.rows[id], PollClaim(e.w), e.at))
    && (e.BeginReconcile? ==> Truthy(e.w.expectedTx) && Eligible(s.rows[id], ReconcileClaim(e.w), e.at))
  }

  ghost function DueTurns(world: World, s: State, events: seq<Event>, id: Id): nat
    decreases |events|
  {
    if events == [] then 0
    else (if DueTurn(s, events[0], id) then 1 else 0) + DueTurns(world, Step(world, s, events[0]), events[1..], id)
  }

  /** Every watch carries the configured budget. */
  ghost predicate Budgeted(cfg: Config, rows: Rows) {
    forall id <- rows :: rows[id].budget == Some(cfg.workBudget)
  }

  lemma ApplyKeepsBudgets(cfg: Config, rows: Rows, op: Op)
    requires Budgeted(cfg, rows)
    ensures Budgeted(cfg, Apply(cfg, rows, op))
  {
    var later := Apply(cfg, rows, op);
    if op.Prepare? {
      var p := PrepareOutcome(cfg, rows, op.id, op.spec, op.intent, op.at);
      hide PrepareOutcome;
      if p.Created? { CreatedMeans(cfg, rows, op); }
    } else {
      hide PrepareOutcome, Admits, EvidenceFits, OutcomeOf;
      forall id <- later ensures later[id].budget == Some(cfg.workBudget) {
        assert id in rows;
      }
    }
  }

  lemma {:induction false} RunKeepsBudgets(cfg: Config, rows: Rows, ops: seq<Op>)
    requires Budgeted(cfg, rows)
    ensures Budgeted(cfg, Watches.Run(cfg, rows, ops))
    decreases |ops|
  {
    hide Apply, Budgeted;
    if ops != [] {
      ApplyKeepsBudgets(cfg, rows, ops[0]);
      RunKeepsBudgets(cfg, Apply(cfg, rows, ops[0]), ops[1..]);
    }
  }

  lemma StepKeepsBudgets(world: World, s: State, e: Event)
    requires Budgeted(world.cfg, s.rows)
    ensures Budgeted(world.cfg, Step(world, s, e).rows)
  {
    hide Step, Budgeted, Watches.Run;
    StepRan(world, s, e);
    var ops :| Step(world, s, e).rows == Watches.Run(world.cfg, s.rows, ops);
    RunKeepsBudgets(world.cfg, s.rows, ops);
  }

  /** Once the charge has been made, whatever the segment does next only lets the rows evolve. */
  lemma AfterCharge(cfg: Config, rows: Rows, op: Op, later: Rows, id: Id)
    requires WellFormedTable(rows) && id in rows && op.Claim? && op.id == id && Eligible(rows[id], op.plan, op.at)
    requires rows[id].budget.Some? && Stmts(cfg, Apply(cfg, rows, op), later)
    ensures id in later && (Open(later[id]) ==> later[id].used > rows[id].used)
  {
    var charged := Apply(cfg, rows, op);
    ApplyKeeps(cfg, rows, op);
    ChargeCounts(cfg, rows, op, id);
    hide WellFormedTable, TableEvolves, Watches.Run, Eligible, Apply;
    var ops: seq<Op> :| (forall o <- ops :: Plain(o)) && later == Watches.Run(cfg, charged, ops);
    RunKeeps(cfg, charged, ops);
    EvolvedRow(charged, later, id);
  }

  lemma EvolvedRow(rows: Rows, later: Rows, id: Id)
    requires TableEvolves(rows, later) && id in rows
    ensures id in later && rows[id].used <= later[id].used && (Open(later[id]) ==> Open(rows[id]))
  {
  }

  /** A due turn uses a unit of a watch that stays open. */
  lemma DueTurnCharges(world: World, s: State, e: Event, id: Id)
    requires WellFormedTable(s.rows) && Budgeted(world.cfg, s.rows) && DueTurn(s, e, id)
    ensures var later := Step(world, s, e).rows;
            id in later && (Open(later[id]) ==> later[id].used > s.rows[id].used)
  {
    hide WellFormedTable, Apply, Eligible, StepBeginPoll, StepBeginReconcile, Stmts;
    if e.BeginPoll? {
      BeginPollCharges(world, s, e.turn, e.sweep, e.w, e.at, e.now);
      AfterCharge(world.cfg, s.rows, Claim(id, PollClaim(e.w), e.at), Step(world, s, e).rows, id);
    } else {
      BeginReconcileCharges(world, s, e.turn, e.w, e.at, e.nextAt);
      AfterCharge(world.cfg, s.rows, Claim(id, ReconcileClaim(e.w), e.at), Step(world, s, e).rows, id);
    }
  }

  /** Units that are left: all of them before the watch exists. */
  function UnitsLeft(cfg: Config, rows: Rows, id: Id): int {
    if id in rows then cfg.workBudget - rows[id].used else cfg.workBudget
  }

  lemma {:induction false} DueTurnsBounded(world: World, s: State, events: seq<Event>, id: Id)
    requires WellFormedTable(s.rows) && Budgeted(world.cfg, s.rows)
    requires DueTurns(world, s, events, id) > UnitsLeft(world.cfg, s.rows, id)
    requires UnitsLeft(world.cfg, s.rows, id) >= 0
    ensures var later := Lifecycle.Run(world, s, events).rows; id in later && !Open(later[id])
    decreases |events|
  {
    hide Step, WellFormedTable, Budgeted, DueTurn, TableEvolves;
    var next := Step(world, s, events[0]);
    StepEvolves(world, s, events[0]);
    StepKeepsBudgets(world, s, events[0]);
    if id in s.rows { EvolvedRow(s.rows, next.rows, id); }
    if DueTurn(s, events[0], id) { DueTurnCharges(world, s, events[0], id); ListedHere(s, events[0], id); }
    if id in next.rows && !Open(next.rows[id]) {
      RunEvolves(world, next, events[1..]);
      EvolvedRow(next.rows, Lifecycle.Run(world, s, events).rows, id);
    } else if id in next.rows {
      UsedWithinBudget(world.cfg, next.rows, id);
      DueTurnsBounded(world, next, events[1..], id);
    } else {
      DueTurnsBounded(world, next, events[1..], id);
    }
  }

  lemma ListedHere(s: State, e: Event, id: Id)
    requires DueTurn(s, e, id)
    ensures id in s.rows
  {
  }

  lemma UsedWithinBudget(cfg: Config, rows: Rows, id: Id)
    requires WellFormedTable(rows) && Budgeted(cfg, rows) && id in rows
    ensures rows[id].used <= cfg.workBudget
  {
  }

  /**
   However turns, crashes and clients interleave, and whatever each turn achieves: one more due turn than the
   configured budget leaves the watch closed.
   */
  lemma WatchClosesWithinBudget(world: World, events: seq<Event>, id: Id)
    requires DueTurns(world, Start(), events, id) > world.cfg.workBudget
    ensures var later := Lifecycle.Run(world, Start(), events).rows; id in later && !Open(later[id])
  {
    hide Lifecycle.Run, DueTurns;
    NothingOpen(world.cfg);
    DueTurnsBounded(world, Start(), events, id);
  }

  // ---- The moment of activation ------------------------------------------------------------

  lemma PlainOpKeepsActivation(cfg: Config, rows: Rows, op: Op, id: Id)
    requires Plain(op)
    ensures var later := Apply(cfg, rows, op);
            && (id in later <==> id in rows)
            && (id in rows ==> later[id].activationRound == rows[id].activationRound)
  {
    hide Admits, EvidenceFits, OutcomeOf, PrepareOutcome, ValidFailure;
  }

  lemma {:induction false} PlainKeepsActivation(cfg: Config, rows: Rows, ops: seq<Op>, id: Id)
    requires WellFormedTable(rows) && forall op <- ops :: Plain(op)
    ensures var later := Watches.Run(cfg, rows, ops);
            && (id in later <==> id in rows)
            && (id in rows ==> later[id].activationRound == rows[id].activationRound)
    decreases |ops|
  {
    hide WellFormedTable, TableEvolves, Apply;
    if ops != [] {
      assert ops[0] in ops;
      ApplyKeeps(cfg, rows, ops[0]);
      PlainOpKeepsActivation(cfg, rows, ops[0], id);
      PlainKeepsActivation(cfg, Apply(cfg, rows, ops[0]), ops[1..], id);
    }
  }

  ghost predicate HasActivated(rows: Rows, id: Id) {
    id in rows && rows[id].activationRound.Some?
  }

  /** The step that activates a watch starts its scan at the activation round. */
  lemma ActivationStartsScan(world: World, s: State, e: Event, id: Id)
    requires WellFormedTable(s.rows) && !HasActivated(s.rows, id) && HasActivated(Step(world, s, e).rows, id)
    ensures Step(world, s, e).rows[id].scanAfter == Step(world, s, e).rows[id].activationRound
  {
    hide Step, WellFormedTable, Watches.Run, PrepareOutcome, Admits, EvidenceFits;
    var later := Step(world, s, e).rows;
    if e.PrepareWatch? {
      PrepareRows(world, s, e);
      if later != s.rows { PreparedInactive(world.cfg, s.rows, Prepare(e.id, e.spec, e.intent, e.at), id); }
    } else {
      StepRows(world, s, e);
      if Stmts(world.cfg, s.rows, later) {
        var ops: seq<Op> :| (forall op <- ops :: Plain(op)) && later == Watches.Run(world.cfg, s.rows, ops);
        PlainKeepsActivation(world.cfg, s.rows, ops, id);
      }
    }
  }

  lemma PreparedInactive(cfg: Config, rows: Rows, op: Op, id: Id)
    requires op.Prepare? && !HasActivated(rows, id)
    ensures !HasActivated(Apply(cfg, rows, op), id)
  {
    var p := PrepareOutcome(cfg, rows, op.id, op.spec, op.intent, op.at);
    hide PrepareOutcome;
    if p.Created? { CreatedMeans(cfg, rows, op); }
  }

  /** scanAfterRound as it was when the watch first became active. */
  ghost function FirstScanRound(world: World, events: seq<Event>, id: Id): Option<nat>
    decreases |events|
  {
    if events == [] then None
    else
      var before := events[..|events| - 1];
      var rows := Lifecycle.Run(world, Start(), events).rows;
      if HasActivated(Lifecycle.Run(world, Start(), before).rows, id) then FirstScanRound(world, before, id)
      else if HasActivated(rows, id) then rows[id].scanAfter
      else None
  }

  lemma {:induction false} RunLast(world: World, s: State, events: seq<Event>)
    requires events != []
    ensures Lifecycle.Run(world, s, events)
         == Step(world, Lifecycle.Run(world, s, events[..|events| - 1]), events[|events| - 1])
    decreases |events|
  {
    hide Step;
    if |events| > 1 {
      RunLast(world, Step(world, s, events[0]), events[1..]);
      assert events[1..][..|events| - 2] == events[..|events| - 1][1..];
    }
  }

  /** Scanning starts at the activation round, and the activation round never changes. */
  lemma {:induction false} ScanStartsAtActivation(world: World, events: seq<Event>, id: Id)
    requires HasActivated(Lifecycle.Run(world, Start(), events).rows, id)
    ensures FirstScanRound(world, events, id) == Lifecycle.Run(world, Start(), events).rows[id].activationRound
    decreases |events|
  {
    hide Step, WellFormedTable, TableEvolves;
    var before := events[..|events| - 1];
    var s := Lifecycle.Run(world, Start(), before);
    RunLast(world, Start(), events);
    hide Lifecycle.Run;
    NothingOpen(world.cfg);
    RunEvolves(world, Start(), before);
    StepEvolves(world, s, events[|events| - 1]);
    if HasActivated(s.rows, id) {
      ScanStartsAtActivation(world, before, id);
      ActivationStays(s.rows, Step(world, s, events[|events| - 1]).rows, id);
    } else {
      ActivationStartsScan(world, s, events[|events| - 1], id);
    }
  }

  lemma ActivationStays(rows: Rows, later: Rows, id: Id)
    requires TableEvolves(rows, later) && HasActivated(rows, id)
    ensures HasActivated(later, id) && later[id].activationRound == rows[id].activationRound
  {
  }
}
