/**
 Metering over whole runs: every request a worker sends is charged to a claimed work unit, no unit
 is charged more than the turn limit, and the limit's own exception is unreachable.
 */
module LifecycleMetering {
  import opened Common
  import opened Watches
  import opened WatchLaws
  import opened ScanQueries
  import opened Chain
  import opened Lifecycle
  import opened PollingSafety
  import opened LifecycleStatements

  // ---- The invariant -----------------------------------------------------------------------

  /** One ledger entry per charged unit. */
  predicate LedgerMatches(rows: Rows, ledger: map<Id, seq<nat>>) {
    ledger.Keys == rows.Keys && forall id | id in rows :: id in ledger && |ledger[id]| == rows[id].used
  }

  predicate Capped(ledger: map<Id, seq<nat>>) {
    forall id, k | id in ledger && 0 <= k < |ledger[id]| :: ledger[id][k] <= MAX_POLLING_REQUESTS
  }

  /** The most requests a turn can have sent when it is suspended here. */
  function Spent(pc: Pc): nat {
    match pc
    case AwaitTip(_) => 1
    case AwaitBlock(_, _) => 2
    case AwaitSweepTip(_) => 3
    case AwaitPage(_, _, _, _) => 4
    case FailingPoll(_) => 4
    case AwaitLookup(_) => 1
    case AwaitRound(_) => 2
    case AwaitAbsence(_, _, _) => 3
    case FailingProof(_) => 3
    case AwaitActivation(_, _) => 0
  }

  /** The fewest requests a turn can have sent when it waits here: one for what it waits for, and those before it. */
  function Sent(pc: Pc): nat {
    match pc
    case AwaitTip(_) => 1
    case AwaitBlock(_, _) => 2
    case AwaitSweepTip(_) => 1
    case AwaitPage(_, _, _, _) => 1
    case FailingPoll(_) => 0
    case AwaitLookup(_) => 1
    case AwaitRound(_) => 2
    case AwaitAbsence(_, _, _) => 1
    case FailingProof(_) => 0
    case AwaitActivation(_, _) => 0
  }

  /** The turn's unit is charged with what the turn has sent, neither less nor more than its place in the turn allows. */
  predicate Charged(ledger: map<Id, seq<nat>>, turn: Turn) {
    var id := WatchOf(turn.pc);
    && id in ledger && turn.unit < |ledger[id]| && ledger[id][turn.unit] == turn.requests
    && Sent(turn.pc) <= turn.requests <= Spent(turn.pc)
  }

  predicate SameUnit(a: Turn, b: Turn) {
    !a.pc.AwaitActivation? && !b.pc.AwaitActivation? && WatchOf(a.pc) == WatchOf(b.pc) && a.unit == b.unit
  }

  predicate TurnsCharged(turns: map<nat, Turn>, ledger: map<Id, seq<nat>>) {
    forall t | t in turns && !turns[t].pc.AwaitActivation? :: Charged(ledger, turns[t])
  }

  predicate UnitsOwned(turns: map<nat, Turn>) {
    forall a, b | a in turns && b in turns && a != b :: !SameUnit(turns[a], turns[b])
  }

  predicate Metered(s: State) {
    && LedgerMatches(s.rows, s.ledger) && Capped(s.ledger)
    && TurnsCharged(s.turns, s.ledger) && UnitsOwned(s.turns) && !s.overrun
  }

  /** The turn's unit is charged with exactly its requests, and no other turn spends it. */
  predicate Owns(s: State, t: nat, turn: Turn) {
    && !turn.pc.AwaitActivation? && Charged(s.ledger, turn)
    && forall other | other in s.turns && other != t :: !SameUnit(s.turns[other], turn)
  }

  // ---- Primitive moves ---------------------------------------------------------------------

  lemma TurnOwns(s: State, t: nat)
    requires Metered(s) && t in s.turns && !s.turns[t].pc.AwaitActivation?
    ensures Owns(s, t, s.turns[t])
  {
    hide Charged, SameUnit, LedgerMatches, Capped;
  }

  lemma Untouched(s: State, later: State)
    requires Metered(s)
    requires later.rows == s.rows && later.turns == s.turns && later.ledger == s.ledger && later.overrun == s.overrun
    ensures Metered(later)
  {
  }

  lemma FinishMetered(s: State, t: nat)
    requires Metered(s)
    ensures Metered(Finish(s, t))
  {
    hide Charged, SameUnit, LedgerMatches, Capped;
  }

  lemma TurnsPutCharged(turns: map<nat, Turn>, ledger: map<Id, seq<nat>>, t: nat, turn: Turn)
    requires TurnsCharged(turns, ledger) && UnitsOwned(turns)
    requires !turn.pc.AwaitActivation? ==> Charged(ledger, turn)
    requires forall other | other in turns && other != t :: !SameUnit(turns[other], turn)
    ensures TurnsCharged(turns[t := turn], ledger) && UnitsOwned(turns[t := turn])
  {
    hide Charged, WatchOf;
    var later := turns[t := turn];
    forall a, b | a in later && b in later && a != b ensures !SameUnit(later[a], later[b]) {
      if a == t {
        assert !SameUnit(turns[b], turn);
      } else if b == t {
        assert !SameUnit(turns[a], turn);
      } else {
        assert !SameUnit(turns[a], turns[b]);
      }
    }
  }

  lemma SuspendMetered(s: State, t: nat, turn: Turn, pc: Pc)
    requires Metered(s) && Owns(s, t, turn)
    requires !pc.AwaitActivation? && WatchOf(pc) == WatchOf(turn.pc) && Sent(pc) <= turn.requests <= Spent(pc)
    ensures Metered(Suspend(s, t, turn, pc))
  {
    hide LedgerMatches, Capped, TurnsCharged, UnitsOwned, Spent, Sent, WatchOf;
    var next := turn.(pc := pc);
    forall other | other in s.turns && other != t ensures !SameUnit(s.turns[other], next) {
      assert !SameUnit(s.turns[other], turn);
    }
    TurnsPutCharged(s.turns, s.ledger, t, next);
  }

  /** Charging one unit changes only the entry of that unit. */
  lemma BumpCharges(turns: map<nat, Turn>, ledger: map<Id, seq<nat>>, t: nat, turn: Turn)
    requires TurnsCharged(turns, ledger) && Charged(ledger, turn) && !turn.pc.AwaitActivation?
    requires forall other | other in turns && other != t :: !SameUnit(turns[other], turn)
    ensures TurnsCharged(Without(turns, t), Bump(ledger, WatchOf(turn.pc), turn.unit))
  {
    var later := Bump(ledger, WatchOf(turn.pc), turn.unit);
    forall other | other in turns && other != t && !turns[other].pc.AwaitActivation?
      ensures Charged(later, turns[other])
    {
      assert Charged(ledger, turns[other]) && !SameUnit(turns[other], turn);
    }
  }

  lemma BumpCapped(rows: Rows, ledger: map<Id, seq<nat>>, turn: Turn)
    requires LedgerMatches(rows, ledger) && Capped(ledger) && Charged(ledger, turn) && turn.requests < MAX_POLLING_REQUESTS
    ensures var later := Bump(ledger, WatchOf(turn.pc), turn.unit); LedgerMatches(rows, later) && Capped(later)
  {
    hide WatchOf, Spent, Sent;
  }

  lemma AskMetered(s: State, t: nat, turn: Turn, pc: Pc, limit: nat)
    requires Metered(s) && Owns(s, t, turn)
    requires !pc.AwaitActivation? && WatchOf(pc) == WatchOf(turn.pc)
    requires Sent(pc) <= turn.requests + 1 <= Spent(pc) && Spent(pc) <= limit <= MAX_POLLING_REQUESTS
    ensures Metered(Ask(s, t, turn, pc, limit))
  {
    hide LedgerMatches, Capped, TurnsCharged, UnitsOwned, WatchOf, Spent, Sent, Ask, Bump;
    var next := turn.(pc := pc, requests := turn.requests + 1);
    var ledger := Bump(s.ledger, WatchOf(turn.pc), turn.unit);
    AskRuns(s, t, turn, pc, limit);
    AskLedger(s, t, turn, pc, limit);
    BumpCharges(s.turns, s.ledger, t, turn);
    BumpCapped(s.rows, s.ledger, turn);
    BumpCharged(s.ledger, turn, pc);
    DroppedOwned(s.turns, t);
    forall other | other in Without(s.turns, t) && other != t ensures !SameUnit(Without(s.turns, t)[other], next) {
      assert !SameUnit(s.turns[other], turn);
    }
    TurnsPutCharged(Without(s.turns, t), ledger, t, next);
    assert Without(s.turns, t)[t := next] == s.turns[t := next];
  }

  lemma DroppedOwned(turns: map<nat, Turn>, t: nat)
    requires UnitsOwned(turns)
    ensures UnitsOwned(Without(turns, t))
  {
    hide SameUnit;
  }

  lemma BumpCharged(ledger: map<Id, seq<nat>>, turn: Turn, pc: Pc)
    requires Charged(ledger, turn) && WatchOf(pc) == WatchOf(turn.pc) && Sent(pc) <= turn.requests + 1 <= Spent(pc)
    ensures Charged(Bump(ledger, WatchOf(turn.pc), turn.unit), turn.(pc := pc, requests := turn.requests + 1))
  {
    hide WatchOf, Spent, Sent;
  }

  lemma AskLedger(s: State, t: nat, turn: Turn, pc: Pc, limit: nat)
    requires turn.requests < limit
    ensures var later := Ask(s, t, turn, pc, limit);
            later.ledger == Bump(s.ledger, WatchOf(pc), turn.unit) && later.overrun == s.overrun
  {
    hide Bump, WatchOf;
  }

  // ---- Statements --------------------------------------------------------------------------

  lemma RowUsedKept(op: Op, r: Row)
    requires !op.Claim?
    ensures UpdateRow(op, r).used == r.used
  {
  }

  /** Only a due claim changes how much of a budget is used. */
  lemma UsedKept(cfg: Config, rows: Rows, op: Op, ledger: map<Id, seq<nat>>)
    requires LedgerMatches(rows, ledger) && !op.Claim? && !op.Prepare?
    ensures LedgerMatches(Apply(cfg, rows, op), ledger)
  {
    hide UpdateRow, Admits;
    if op.RepairBudgets? {
    } else if op.id in rows {
      RowUsedKept(op, rows[op.id]);
    }
  }

  lemma StoreMetered(world: World, s: State, op: Op)
    requires Metered(s) && !op.Claim? && !op.Prepare?
    ensures Metered(Store(world, s, op))
  {
    hide Apply, TurnsCharged, UnitsOwned, Capped, LedgerMatches;
    UsedKept(world.cfg, s.rows, op, s.ledger);
  }

  lemma StoreOwns(world: World, s: State, op: Op, t: nat, turn: Turn)
    requires Owns(s, t, turn)
    ensures Owns(Store(world, s, op), t, turn)
  {
    hide Apply, Charged, SameUnit;
  }

  lemma RefusedClaim(cfg: Config, rows: Rows, op: Op, ledger: map<Id, seq<nat>>)
    requires WellFormedTable(rows) && LedgerMatches(rows, ledger)
    requires op.Claim? && !ClaimOutcomeOf(rows, op.id, op.plan, op.at).Claimed?
    ensures LedgerMatches(Apply(cfg, rows, op), ledger)
  {
    if op.id in rows { ChargeAdmitted(cfg, rows, op); }
  }

  lemma GrantedClaim(cfg: Config, rows: Rows, op: Op, ledger: map<Id, seq<nat>>)
    requires WellFormedTable(rows) && LedgerMatches(rows, ledger)
    requires op.Claim? && ClaimOutcomeOf(rows, op.id, op.plan, op.at).Claimed?
    ensures op.id in ledger && LedgerMatches(Apply(cfg, rows, op), ledger[op.id := ledger[op.id] + [0]])
  {
    ChargeAdmitted(cfg, rows, op);
  }

  lemma OpenedCharged(turns: map<nat, Turn>, ledger: map<Id, seq<nat>>, id: Id)
    requires TurnsCharged(turns, ledger) && Capped(ledger) && id in ledger
    ensures TurnsCharged(turns, ledger[id := ledger[id] + [0]]) && Capped(ledger[id := ledger[id] + [0]])
  {
    hide Spent, Sent, WatchOf;
    forall t | t in turns && !turns[t].pc.AwaitActivation? ensures Charged(ledger[id := ledger[id] + [0]], turns[t]) {
      assert Charged(ledger, turns[t]);
    }
  }

  /** A granted claim and the unit it opens: the new turn owns that unit. */
  lemma ClaimMetered(world: World, s: State, op: Op, t: nat, turn: Turn)
    requires Metered(s) && WellFormedTable(s.rows) && t !in s.turns
    requires op.Claim? && ClaimOutcomeOf(s.rows, op.id, op.plan, op.at).Claimed?
    requires (turn.pc.FailingPoll? || turn.pc.FailingProof?) && WatchOf(turn.pc) == op.id && turn.requests == 0
    requires turn.unit == if op.id in s.ledger then |s.ledger[op.id]| else 0
    ensures var s1 := OpenUnit(Store(world, s, op), op.id); Metered(s1) && Owns(s1, t, turn)
  {
    hide Apply, UnitsOwned, Capped, LedgerMatches, WellFormedTable, ClaimOutcomeOf, Spent, WatchOf;
    GrantedClaim(world.cfg, s.rows, op, s.ledger);
    OpenedCharged(s.turns, s.ledger, op.id);
    forall other | other in s.turns && other != t ensures !SameUnit(s.turns[other], turn) {
      assert !s.turns[other].pc.AwaitActivation? ==> Charged(s.ledger, s.turns[other]);
    }
  }

  // ---- Segments ----------------------------------------------------------------------------

  lemma RequestPageMetered(world: World, s: State, t: nat, turn: Turn, w: Row, session: nat)
    requires Metered(s) && Owns(s, t, turn) && WatchOf(turn.pc) == w.id && turn.requests <= 3
    ensures Metered(RequestPage(world, s, t, turn, w, session))
  {
    hide Metered, Owns, Ask, Finish, BuildQuery;
    if session !in s.scans {
      FinishMetered(s, t);
    } else {
      var scan := s.scans[session];
      var q := BuildQuery(w.spec, world.variant, scan.minRound, scan.maxRound);
      if q.Thrown? {
        AskMetered(s, t, turn, FailingPoll(w), MAX_POLLING_REQUESTS);
      } else {
        var key := Key(q.value, TokenSent(scan.next));
        var held := if key in s.cache then Some(s.cache[key]) else None;
        AskMetered(s, t, turn, AwaitPage(w, session, key, held), MAX_POLLING_REQUESTS);
      }
    }
  }

  lemma ForgetMetered(s: State, later: State, t: nat, turn: Turn)
    requires later == s.(scans := later.scans, scanOf := later.scanOf, proofs := later.proofs, proofOf := later.proofOf,
                         shared := later.shared, cache := later.cache, listed := later.listed)
    ensures Metered(s) ==> Metered(later)
    ensures Owns(s, t, turn) ==> Owns(later, t, turn)
  {
    hide LedgerMatches, TurnsCharged, UnitsOwned, Capped, Charged, SameUnit;
  }

  lemma AfterCheckpointMetered(world: World, s: State, t: nat, turn: Turn, w: Row)
    requires Metered(s) && Owns(s, t, turn) && WatchOf(turn.pc) == w.id && turn.requests <= 2 && Pollable(w)
    ensures Metered(AfterCheckpoint(world, s, t, turn, w))
  {
    hide Metered, Owns, Ask, Finish, Store, RequestPage, ScanFits;
    if w.closing.Some? && w.closing.value <= w.scanAfter.value {
      var op := MarkExpired(w.id, w.scanAfter.value, w.closing.value);
      StoreMetered(world, s, op);
      FinishMetered(Store(world, s, op), t);
    } else {
      var s1 := DropStaleScan(s, w.id, Some(w));
      ForgetMetered(s, s1, t, turn);
      if w.id in s1.scanOf {
        RequestPageMetered(world, s1, t, turn, w, s1.scanOf[w.id]);
      } else {
        AskMetered(s1, t, turn, AwaitSweepTip(w), MAX_POLLING_REQUESTS);
      }
    }
  }

  lemma RefusedMetered(world: World, s: State, op: Op)
    requires Metered(s) && WellFormedTable(s.rows)
    requires op.Claim? && !ClaimOutcomeOf(s.rows, op.id, op.plan, op.at).Claimed?
    ensures Metered(Store(world, s, op))
  {
    hide Apply, TurnsCharged, UnitsOwned, Capped, LedgerMatches, WellFormedTable, ClaimOutcomeOf;
    RefusedClaim(world.cfg, s.rows, op, s.ledger);
  }

  lemma BeginPollMetered(world: World, s: State, t: nat, sweep: nat, w: Row, at: int, now: int)
    requires Metered(s) && WellFormedTable(s.rows) && t !in s.turns
    ensures Metered(StepBeginPoll(world, s, t, sweep, w, at, now))
  {
    hide Metered, Owns, Ask, Store, AfterCheckpoint, DropStaleScan, ForgetScan, WellFormedTable, ClaimOutcomeOf, OpenUnit;
    if Pollable(w) {
      var op := Claim(w.id, PollClaim(w), at);
      var s1 := Store(world, s, op);
      match ClaimOutcomeOf(s.rows, w.id, PollClaim(w), at) {
        case Exhausted =>
          RefusedMetered(world, s, op);
          ScanForgotten(s1, w.id, None);
        case Inactive =>
          RefusedMetered(world, s, op);
          ScanForgotten(s1, w.id, RowOf(s1.rows, w.id));
        case Claimed =>
          var turn, s2 := NewTurn(s1, w.id, sweep, FailingPoll(w)), OpenUnit(s1, w.id);
          NewTurnUnit(world, s, op, sweep, FailingPoll(w));
          ClaimMetered(world, s, op, t, turn);
          if w.closing.None? && w.expiresAt.value <= now {
            AskMetered(s2, t, turn, AwaitTip(w), MAX_POLLING_REQUESTS);
          } else {
            AfterCheckpointMetered(world, s2, t, turn, w);
          }
      }
    } else {
    }
  }

  lemma NewTurnUnit(world: World, s: State, op: Op, sweep: nat, pc: Pc)
    requires op.Claim?
    ensures NewTurn(Store(world, s, op), op.id, sweep, pc)
         == Turn(sweep, pc, if op.id in s.ledger then |s.ledger[op.id]| else 0, 0)
  {
    hide Apply;
  }

  lemma ScanForgotten(s: State, id: Id, w: Option<Row>)
    requires Metered(s)
    ensures Metered(ForgetScan(s, id)) && Metered(DropStaleScan(s, id, w))
  {
    hide Metered, ScanFits;
    Untouched(s, ForgetScan(s, id));
    Untouched(s, DropStaleScan(s, id, w));
  }

  lemma ProofForgotten(s: State, id: Id, w: Option<Row>)
    requires Metered(s)
    ensures Metered(ForgetProof(s, id)) && Metered(DropStaleProof(s, id, w))
  {
    hide Metered, ProofFits;
    Untouched(s, ForgetProof(s, id));
    Untouched(s, DropStaleProof(s, id, w));
  }

  lemma BlockMetered(world: World, s: State, t: nat, turn: Turn)
    requires Metered(s) && WellFormedTable(s.rows) && Owns(s, t, turn) && turn.pc.AwaitBlock?
    ensures Metered(StepBlock(world, s, t, turn))
  {
    hide Metered, Store, Finish, AfterCheckpoint, WellFormed, Unique, Apply, SameUnit, OutcomeOf;
    var w, round := turn.pc.w, turn.pc.round;
    if !Pollable(w) {
      FinishMetered(s, t);
    } else if world.time(round) * 1000 < w.expiresAt.value {
      AfterCheckpointMetered(world, s, t, turn, w);
    } else {
      var op := SetClosing(w.id, round);
      var s1 := Store(world, s, op);
      StoreMetered(world, s, op);
      StoreOwns(world, s, op, t, turn);
      ApplyKeeps(world.cfg, s.rows, op);
      if w.id in s1.rows && Pollable(s1.rows[w.id]) {
        AfterCheckpointMetered(world, s1, t, turn, s1.rows[w.id]);
      } else {
        FinishMetered(s1, t);
      }
    }
  }

  lemma SweepTipMetered(world: World, s: State, t: nat, turn: Turn, round: nat, session: nat)
    requires Metered(s) && Owns(s, t, turn) && turn.pc.AwaitSweepTip?
    ensures Metered(StepSweepTip(world, s, t, turn, round, session))
  {
    hide Metered, Finish, RequestPage, WindowEnd, SameUnit;
    var w := turn.pc.w;
    if w.scanAfter.None? {
      FinishMetered(s, t);
    } else {
      var maxRound := WindowEnd(world, w, round);
      if maxRound <= w.scanAfter.value {
        FinishMetered(s, t);
      } else {
        var scan := ScanSession(w.id, w.scanAfter.value + 1, maxRound, None, {}, 0);
        var s1 := s.(scans := s.scans[session := scan], scanOf := s.scanOf[w.id := session]);
        ForgetMetered(s, s1, t, turn);
        RequestPageMetered(world, s1, t, turn, w, session);
      }
    }
  }

  lemma CompleteWindowMetered(world: World, s: State, w: Row, maxRound: nat)
    requires Metered(s) && w.scanAfter.Some?
    ensures Metered(CompleteWindow(world, s, w, maxRound))
  {
    hide Metered, Store, Advances;
    var op := AdvanceScan(w.id, w.scanAfter.value, maxRound);
    var s1 := Store(world, s, op);
    StoreMetered(world, s, op);
    if !Advances(s.rows, w.id, w.scanAfter.value, maxRound) || w.id !in s1.rows {
    } else {
      var updated := s1.rows[w.id];
      if updated.closing.Some? && updated.scanAfter == updated.closing {
        StoreMetered(world, s1, MarkExpired(w.id, updated.scanAfter.value, updated.closing.value));
      } else {
      }
    }
  }

  lemma ConsumeMetered(world: World, s: State, t: nat, turn: Turn, page: Page)
    requires Metered(s) && Owns(s, t, turn) && turn.pc.AwaitPage?
    ensures Metered(Consume(world, s, t, turn, page))
  {
    hide Metered, Store, Finish, Suspend, CompleteWindow, FirstMatch, SameUnit, ForgetScan, PutScan;
    var w, session := turn.pc.w, turn.pc.session;
    if session !in s.scans || w.scanAfter.None? {
      FinishMetered(s, t);
    } else {
      var scan, found := s.scans[session], FirstMatch(page.transactions, w);
      if page.currentRound < scan.maxRound {
        SuspendMetered(s, t, turn, FailingPoll(w));
      } else if found.Some? {
        var op := MarkMatched(w.id, found.value.tx, found.value.round);
        StoreMetered(world, s, op);
        ScanForgotten(Store(world, s, op), w.id, None);
        FinishMetered(ForgetScan(Store(world, s, op), w.id), t);
      } else if page.next.Some? {
        if page.next == scan.next || page.next.value in scan.seen {
          SuspendMetered(s, t, turn, FailingPoll(w));
        } else {
          var later := scan.(next := page.next, seen := scan.seen + {page.next.value}, consumed := scan.consumed + 1);
          ScanPutMetered(s, session, later);
          FinishMetered(PutScan(s, session, later), t);
        }
      } else {
        ScanForgotten(s, w.id, None);
        CompleteWindowMetered(world, ForgetScan(s, w.id), w, scan.maxRound);
        FinishMetered(CompleteWindow(world, ForgetScan(s, w.id), w, scan.maxRound), t);
      }
    }
  }

  lemma ScanPutMetered(s: State, session: nat, scan: ScanSession)
    requires Metered(s)
    ensures Metered(PutScan(s, session, scan))
  {
    hide Metered;
    Untouched(s, PutScan(s, session, scan));
  }

  lemma PageMetered(world: World, s: State, t: nat, turn: Turn, source: Source)
    requires Metered(s) && Owns(s, t, turn) && turn.pc.AwaitPage?
    ensures Metered(StepPage(world, s, t, turn, source))
  {
    hide Metered, Suspend, Consume, HonestPage, ParsePage, SameUnit;
    var w, key := turn.pc.w, turn.pc.key;
    match source {
      case Held =>
        if turn.pc.held.Some? {
          ConsumeMetered(world, s, t, turn, turn.pc.held.value);
        } else {
        }
      case FromSweep =>
        if (turn.sweep, key) in s.shared {
          ConsumeMetered(world, s, t, turn, s.shared[(turn.sweep, key)]);
        } else {
        }
      case Fetched(raw, kept) =>
        if !HonestPage(world, key, raw) {
        } else {
          var page := ParsePage(raw, key.query.minRound, key.query.maxRound, w.spec, world.variant);
          if page.Thrown? {
            SuspendMetered(s, t, turn, FailingPoll(w));
          } else {
            var cache := if kept && key.query.maxRound <= page.value.currentRound then s.cache[key := page.value] else s.cache;
            var s1 := s.(shared := s.shared[(turn.sweep, key) := page.value], cache := cache);
            ForgetMetered(s, s1, t, turn);
            ConsumeMetered(world, s1, t, turn, page.value);
          }
        }
    }
  }

  lemma FailsMetered(world: World, s: State, later: State, t: nat, op: Op)
    requires Metered(s) && !op.Claim? && !op.Prepare?
    requires later.rows == s.rows && later.turns == s.turns && later.ledger == s.ledger && later.overrun == s.overrun
    ensures Metered(Finish(Store(world, later, op), t))
  {
    hide Metered, Store, Finish;
    Untouched(s, later);
    StoreMetered(world, later, op);
    FinishMetered(Store(world, later, op), t);
  }

  lemma RequestAbsenceMetered(s: State, t: nat, turn: Turn, w: Row, session: nat)
    requires Metered(s) && Owns(s, t, turn) && WatchOf(turn.pc) == w.id && turn.requests <= 2
    ensures Metered(RequestAbsence(s, t, turn, w, session))
  {
    hide Metered, Owns, Ask, Finish;
    if session !in s.proofs {
      FinishMetered(s, t);
    } else {
      AskMetered(s, t, turn, AwaitAbsence(w, session, TokenSent(s.proofs[session].next)), MAX_RECONCILIATION_REQUESTS);
    }
  }

  lemma ClaimedReconcileMetered(world: World, s: State, op: Op, t: nat, w: Row, nextAt: int)
    requires Metered(s) && WellFormedTable(s.rows) && t !in s.turns
    requires op.Claim? && op.id == w.id && ClaimOutcomeOf(s.rows, op.id, op.plan, op.at).Claimed?
    ensures Metered(ClaimedReconcile(world, Store(world, s, op), t, w, nextAt))
  {
    hide Metered, Owns, Ask, Store, DropStaleProof, WellFormedTable, ClaimOutcomeOf, OpenUnit, RequestAbsence, HasTerms;
    var s0 := Store(world, s, op);
    var turn, s1 := NewTurn(s0, w.id, 0, FailingProof(w)), OpenUnit(s0, w.id);
    NewTurnUnit(world, s, op, 0, FailingProof(w));
    ClaimMetered(world, s, op, t, turn);
    if !HasTerms(w) {
      StoreMetered(world, s1, Defer(w.id, nextAt));
    } else {
      var s2 := DropStaleProof(s1, w.id, Some(w));
      ProofDropped(s1, w.id, Some(w), t, turn);
      if w.id in s2.proofOf {
        RequestAbsenceMetered(s2, t, turn, w, s2.proofOf[w.id]);
      } else {
        AskMetered(s2, t, turn, AwaitLookup(w), MAX_RECONCILIATION_REQUESTS);
      }
    }
  }

  lemma ProofDropped(s: State, id: Id, w: Option<Row>, t: nat, turn: Turn)
    requires Metered(s) && Owns(s, t, turn)
    ensures Metered(DropStaleProof(s, id, w)) && Owns(DropStaleProof(s, id, w), t, turn)
  {
    hide Metered, Owns, ProofFits;
    ForgetMetered(s, DropStaleProof(s, id, w), t, turn);
  }

  lemma BeginReconcileMetered(world: World, s: State, t: nat, w: Row, at: int, nextAt: int)
    requires Metered(s) && WellFormedTable(s.rows) && t !in s.turns
    ensures Metered(StepBeginReconcile(world, s, t, w, at, nextAt))
  {
    hide Metered, Store, DropStaleProof, ForgetProof, WellFormedTable, ClaimOutcomeOf, ClaimedReconcile;
    if !Truthy(w.expectedTx) {
    } else {
      var op := Claim(w.id, Reconciliation(w.expectedTx.value, w.attempts), at);
      var s1 := Store(world, s, op);
      match ClaimOutcomeOf(s.rows, w.id, op.plan, at) {
        case Exhausted =>
          RefusedMetered(world, s, op);
          ProofForgotten(s1, w.id, None);
        case Inactive =>
          RefusedMetered(world, s, op);
          ProofForgotten(s1, w.id, RowOf(s1.rows, w.id));
        case Claimed => ClaimedReconcileMetered(world, s, op, t, w, nextAt);
      }
    }
  }

  lemma ApplyConfirmedMetered(world: World, s: State, t: nat, turn: Turn, found: Transfer, at: int)
    requires Metered(s) && Owns(s, t, turn) && turn.requests <= 3 && !turn.pc.AwaitActivation?
    ensures Metered(ApplyConfirmed(world, s, t, turn, found, at))
  {
    hide Metered, Owns, Store, Finish, Suspend, ForgetProof, ActivationThrows, MeetsTerms;
    var w := turn.pc.w;
    ConfirmedOwns(s, t, turn);
    var s1 := ForgetProof(s, w.id);
    if w.expectedTx == Some(found.tx) && w.expectedNetwork == Some(world.network) && MeetsTerms(w, found) {
      var op := Activate(w.id, Evidence(found.tx, world.network, Some(found.sender)), Some(found.round), at);
      if ActivationThrows(s.rows, op) {
        SuspendMetered(s1, t, turn, FailingProof(w));
      } else {
        StoreMetered(world, s1, op);
        FinishMetered(Store(world, s1, op), t);
      }
    } else {
      StoreMetered(world, s1, MarkInvalid(w.id));
      FinishMetered(Store(world, s1, MarkInvalid(w.id)), t);
    }
  }

  lemma ConfirmedOwns(s: State, t: nat, turn: Turn)
    requires Metered(s) && Owns(s, t, turn)
    ensures !turn.pc.AwaitActivation? && Metered(ForgetProof(s, turn.pc.w.id)) && Owns(ForgetProof(s, turn.pc.w.id), t, turn)
  {
    hide Metered, Charged, SameUnit;
    ForgetMetered(s, ForgetProof(s, turn.pc.w.id), t, turn);
  }

  lemma LookupMetered(world: World, s: State, t: nat, turn: Turn, found: Option<Transfer>, at: int)
    requires Metered(s) && Owns(s, t, turn) && turn.pc.AwaitLookup?
    ensures Metered(StepLookup(world, s, t, turn, found, at))
  {
    hide Metered, ApplyConfirmed, HonestLookup, Ask, SameUnit;
    var w := turn.pc.w;
    if w.expectedTx.None? || !HonestLookup(world, w.expectedTx.value, found) {
    } else if found.Some? {
      ApplyConfirmedMetered(world, s, t, turn, found.value, at);
    } else {
      AskMetered(s, t, turn, AwaitRound(w), MAX_RECONCILIATION_REQUESTS);
    }
  }

  lemma RoundMetered(world: World, s: State, t: nat, turn: Turn, round: nat, session: nat, nextAt: int)
    requires Metered(s) && Owns(s, t, turn) && turn.pc.AwaitRound?
    ensures Metered(StepRound(world, s, t, turn, round, session, nextAt))
  {
    hide Metered, Store, Finish, RequestAbsence, SameUnit;
    var w := turn.pc.w;
    if !HasTerms(w) {
      FinishMetered(s, t);
    } else if round <= w.terms.value.lastValid {
      FailsMetered(world, s, s, t, Defer(w.id, nextAt));
    } else {
      var proof := ProofSession(w.id, w.expectedTx.value, None, {}, None, 0);
      var s1 := s.(proofs := s.proofs[session := proof], proofOf := s.proofOf[w.id := session]);
      ForgetMetered(s, s1, t, turn);
      RequestAbsenceMetered(s1, t, turn, w, session);
    }
  }

  lemma AbsenceMetered(world: World, s: State, t: nat, turn: Turn, page: AbsencePage, at: int, nextAt: int)
    requires Metered(s) && Owns(s, t, turn) && turn.pc.AwaitAbsence?
    ensures Metered(StepAbsence(world, s, t, turn, page, at, nextAt))
  {
    hide Metered, Owns, Store, Finish, Suspend, ForgetProof, ApplyConfirmed, HonestAbsence, Coverage, PutProof;
    var w, session, token := turn.pc.w, turn.pc.session, turn.pc.token;
    AbsenceOwned(s, t, turn);
    if session !in s.proofs || !HasTerms(w) || !HonestAbsence(world, w.expectedTx.value, token, page) {
    } else {
      var coverage := Coverage(s.proofs[session].coverage, page.currentRound);
      var proof := s.proofs[session].(coverage := Some(coverage));
      var s1 := PutProof(s, session, proof);
      ProofPutMetered(s, session, proof, t, turn);
      if page.items != [] {
        ApplyConfirmedMetered(world, s1, t, turn, page.items[0], at);
      } else if page.next.Some? {
        if page.next == proof.next || page.next.value in proof.seen {
          SuspendMetered(s1, t, turn, FailingProof(w));
        } else {
          var later := proof.(next := page.next, seen := proof.seen + {page.next.value}, consumed := proof.consumed + 1);
          ProofPutMetered(s, session, later, t, turn);
          FailsMetered(world, PutProof(s, session, later), PutProof(s, session, later), t, Defer(w.id, nextAt));
        }
      } else {
        ConfirmedOwns(s1, t, turn);
        var s2 := ForgetProof(s1, w.id);
        if coverage <= w.terms.value.lastValid {
          SuspendMetered(s2, t, turn, FailingProof(w));
        } else {
          FailsMetered(world, s2, s2, t, MarkInvalid(w.id));
        }
      }
    }
  }

  lemma AbsenceOwned(s: State, t: nat, turn: Turn)
    requires Owns(s, t, turn) && turn.pc.AwaitAbsence?
    ensures turn.requests <= 3
  {
    hide SameUnit;
  }

  lemma ProofPutMetered(s: State, session: nat, proof: ProofSession, t: nat, turn: Turn)
    requires Metered(s) && Owns(s, t, turn)
    ensures Metered(PutProof(s, session, proof)) && Owns(PutProof(s, session, proof), t, turn)
  {
    hide Metered, Owns;
    ForgetMetered(s, PutProof(s, session, proof), t, turn);
  }

  lemma TurnMetered(world: World, s: State, e: Event, t: nat)
    requires Metered(s) && WellFormedTable(s.rows) && t in s.turns
    ensures Metered(StepTurn(world, s, e, t, s.turns[t]))
  {
    hide Metered, Owns, WellFormedTable, Ask, Finish, StepBlock, StepSweepTip, StepPage, StepLookup, StepRound, StepAbsence;
    hide StepActivation, StepPollFails, StepProofFails;
    var turn := s.turns[t];
    if turn.pc.AwaitActivation? {
      ActivationTurnMetered(world, s, e, t, turn);
    } else {
      TurnOwns(s, t);
      match e {
        case TipArrives(_, round) => if turn.pc.AwaitTip? { TipMetered(s, t, turn, round); }
        case BlockArrives(_) => if turn.pc.AwaitBlock? { BlockMetered(world, s, t, turn); }
        case SweepTipArrives(_, round, session) => if turn.pc.AwaitSweepTip? { SweepTipMetered(world, s, t, turn, round, session); }
        case PageArrives(_, source) => if turn.pc.AwaitPage? { PageMetered(world, s, t, turn, source); }
        case PollFails(_, f, retryAt) => PollFailsMetered(world, s, t, turn, f, retryAt);
        case LookupArrives(_, found, at) => if turn.pc.AwaitLookup? { LookupMetered(world, s, t, turn, found, at); }
        case RoundArrives(_, round, session, nextAt) =>
          if turn.pc.AwaitRound? { RoundMetered(world, s, t, turn, round, session, nextAt); }
        case AbsenceArrives(_, page, at, nextAt) => if turn.pc.AwaitAbsence? { AbsenceMetered(world, s, t, turn, page, at, nextAt); }
        case ProofFails(_, nextAt) => ProofFailsMetered(world, s, t, turn, nextAt);
        case Interrupted(_) => FinishMetered(s, t);
        case _ =>
      }
    }
  }

  lemma TipMetered(s: State, t: nat, turn: Turn, round: nat)
    requires Metered(s) && Owns(s, t, turn) && turn.pc.AwaitTip?
    ensures Metered(Ask(s, t, turn, AwaitBlock(turn.pc.w, round), MAX_POLLING_REQUESTS))
  {
    hide Metered, SameUnit, Ask;
    AskMetered(s, t, turn, AwaitBlock(turn.pc.w, round), MAX_POLLING_REQUESTS);
  }

  lemma PollFailsMetered(world: World, s: State, t: nat, turn: Turn, f: Failure, retryAt: Option<int>)
    requires Metered(s) && !turn.pc.AwaitActivation?
    ensures Metered(StepPollFails(world, s, t, turn, f, retryAt))
  {
    hide Metered, Store, Finish;
    FailsMetered(world, s, s.(scanOf := Without(s.scanOf, turn.pc.w.id), cache := map[]), t, RecordFailure(turn.pc.w.id, f, retryAt));
  }

  lemma ProofFailsMetered(world: World, s: State, t: nat, turn: Turn, nextAt: int)
    requires Metered(s) && !turn.pc.AwaitActivation?
    ensures Metered(StepProofFails(world, s, t, turn, nextAt))
  {
    hide Metered, Store, Finish;
    FailsMetered(world, s, ForgetProof(s, turn.pc.w.id), t, Defer(turn.pc.w.id, nextAt));
  }

  /** The settlement hook sends its lookup outside any work unit. */
  lemma ActivationTurnMetered(world: World, s: State, e: Event, t: nat, turn: Turn)
    requires Metered(s) && turn.pc.AwaitActivation?
    ensures Metered(StepTurn(world, s, e, t, turn))
  {
    hide Metered, Store, Finish, HonestLookup, MeetsTerms;
    var id, ev := turn.pc.watch, turn.pc.ev;
    match e {
      case ActivationLookup(_, found, at) =>
        if !HonestLookup(world, ev.tx, found) {
        } else if found.None? || id !in s.rows {
          FinishMetered(s, t);
        } else if found.value.tx == ev.tx && MeetsTerms(s.rows[id], found.value) {
          FailsMetered(world, s, s, t, Activate(id, ev, Some(found.value.round), at));
        } else {
          FailsMetered(world, s, s, t, MarkInvalid(id));
        }
      case Interrupted(_) => FinishMetered(s, t);
      case _ =>
    }
  }

  // ---- Whole runs --------------------------------------------------------------------------

  lemma NewLedger(cfg: Config, rows: Rows, op: Op, ledger: map<Id, seq<nat>>)
    requires op.Prepare? && LedgerMatches(rows, ledger)
    ensures var later := Apply(cfg, rows, op);
            LedgerMatches(later, if op.id in later && op.id !in rows then ledger[op.id := []] else ledger)
  {
    hide PrepareOutcome;
    var p := PrepareOutcome(cfg, rows, op.id, op.spec, op.intent, op.at);
    if p.Created? { CreatedMeans(cfg, rows, op); }
  }

  lemma LedgerKeys(rows: Rows, ledger: map<Id, seq<nat>>)
    requires LedgerMatches(rows, ledger)
    ensures ledger.Keys == rows.Keys
  {
  }

  lemma StoreFrame(world: World, s: State, op: Op)
    ensures var s1 := Store(world, s, op); s1.turns == s.turns && s1.ledger == s.ledger && s1.overrun == s.overrun
  {
    hide Apply;
  }

  lemma PrepareMetered(world: World, s: State, id: Id, spec: Spec, intent: Option<Intent>, at: int)
    requires Metered(s)
    ensures Metered(StepPrepare(world, s, id, spec, intent, at))
  {
    assert LedgerMatches(s.rows, s.ledger);
    hide Apply, UnitsOwned, TurnsCharged, Capped, Store, LedgerMatches, IntentSound;
    var op := Prepare(id, spec, intent, at);
    NewLedger(world.cfg, s.rows, op, s.ledger);
    var s1 := Store(world, s, op);
    StoreFrame(world, s, op);
    if intent.Some? && !IntentSound(world, intent.value) {
    } else if id in s1.rows && id !in s.rows {
      LedgerKeys(s.rows, s.ledger);
      NewWatchCharged(s.turns, s.ledger, id);
    } else {
    }
  }

  lemma NewWatchCharged(turns: map<nat, Turn>, ledger: map<Id, seq<nat>>, id: Id)
    requires TurnsCharged(turns, ledger) && Capped(ledger) && id !in ledger
    ensures TurnsCharged(turns, ledger[id := []]) && Capped(ledger[id := []])
  {
    hide Spent, Sent, WatchOf;
  }

  lemma SettledMetered(world: World, s: State, t: nat, id: Id, ev: Evidence)
    requires Metered(s) && t !in s.turns
    ensures Metered(StepSettled(world, s, t, id, ev))
  {
    hide LedgerMatches, Capped, TurnsCharged, UnitsOwned, Store, CandidateAccepted;
    var op := RecordCandidate(id, ev);
    if CandidateAccepted(s.rows, op) {
      var s1 := Store(world, s, op);
      StoreMetered(world, s, op);
      TurnsPutCharged(s1.turns, s1.ledger, t, Turn(0, AwaitActivation(id, ev), 0, 0));
    } else {
    }
  }

  lemma CrashMetered(world: World, s: State)
    requires Metered(s)
    ensures Metered(StepCrash(world, s))
  {
    hide LedgerMatches, Capped, Store;
    StoreMetered(world, s, RepairBudgets);
  }

  lemma ListMetered(s: State)
    requires Metered(s)
    ensures Metered(s.(listed := s.listed + s.rows.Values))
  {
    hide Metered;
    Untouched(s, s.(listed := s.listed + s.rows.Values));
  }

  lemma EvictMetered(s: State, key: Key)
    requires Metered(s)
    ensures Metered(s.(cache := Without(s.cache, key)))
  {
    hide Metered;
    Untouched(s, s.(cache := Without(s.cache, key)));
  }

  lemma ClientMetered(world: World, s: State, e: Event)
    requires Metered(s)
    ensures Metered(StepClient(world, s, e))
  {
    hide Metered, Store, StepPrepare, StepSettled;
    match e {
      case PrepareWatch(id, spec, intent, at) => PrepareMetered(world, s, id, spec, intent, at);
      case SettlementFailed(id) => StoreMetered(world, s, MarkUnknown(id));
      case Settled(t, id, ev) => if t !in s.turns { SettledMetered(world, s, t, id, ev); }
      case ClearPollingFailure(id) => StoreMetered(world, s, ClearFailure(id));
      case _ =>
    }
  }

  lemma WorkerMetered(world: World, s: State, e: Event)
    requires Metered(s) && WellFormedTable(s.rows)
    ensures Metered(StepWorker(world, s, e))
  {
    hide Metered, WellFormedTable, StepBeginPoll, StepBeginReconcile;
    match e {
      case List => ListMetered(s);
      case BeginPoll(t, sweep, w, at, now) => if t !in s.turns { BeginPollMetered(world, s, t, sweep, w, at, now); }
      case BeginReconcile(t, w, at, nextAt) => if t !in s.turns { BeginReconcileMetered(world, s, t, w, at, nextAt); }
      case _ =>
    }
  }

  lemma UpkeepMetered(world: World, s: State, e: Event)
    requires Metered(s)
    ensures Metered(StepUpkeep(world, s, e))
  {
    hide Metered, DropStaleScan, DropStaleProof, StepCrash;
    match e {
      case PruneScan(id) => ScanForgotten(s, id, RowOf(s.rows, id));
      case PruneProof(id) => ProofForgotten(s, id, RowOf(s.rows, id));
      case Evict(key) => EvictMetered(s, key);
      case Crash => CrashMetered(world, s);
      case _ =>
    }
  }

  lemma StepMetered(world: World, s: State, e: Event)
    requires Metered(s) && WellFormedTable(s.rows)
    ensures Metered(Step(world, s, e))
  {
    hide Metered, WellFormedTable, StepClient, StepWorker, StepUpkeep, StepTurn;
    if OfClient(e) {
      ClientMetered(world, s, e);
    } else if OfWorker(e) {
      WorkerMetered(world, s, e);
    } else if OfUpkeep(e) {
      UpkeepMetered(world, s, e);
    } else if e.turn in s.turns {
      TurnMetered(world, s, e, e.turn);
    } else {
    }
  }

  lemma {:induction false} RunMetered(world: World, s: State, events: seq<Event>)
    requires Metered(s) && WellFormedTable(s.rows)
    ensures Metered(Lifecycle.Run(world, s, events)) && WellFormedTable(Lifecycle.Run(world, s, events).rows)
    decreases |events|
  {
    hide Metered, WellFormedTable, Step;
    if events != [] {
      StepMetered(world, s, events[0]);
      StepEvolves(world, s, events[0]);
      RunMetered(world, Step(world, s, events[0]), events[1..]);
    }
  }

  function Sum(entries: seq<nat>): nat {
    if entries == [] then 0 else entries[0] + Sum(entries[1..])
  }

  lemma {:induction false} SumBounded(entries: seq<nat>, cap: nat)
    requires forall k | 0 <= k < |entries| :: entries[k] <= cap
    ensures Sum(entries) <= cap * |entries|
  {
    if entries != [] {
      SumBounded(entries[1..], cap);
    }
  }

  /**
   Over any run, the workers send at most four requests per charged unit for a watch, so at most four
   times its budget in its whole life, crashes included.
   */
  lemma RequestsBounded(world: World, events: seq<Event>, id: Id)
    requires id in Lifecycle.Run(world, Start(), events).rows
    ensures var s := Lifecycle.Run(world, Start(), events);
            && id in s.ledger && |s.ledger[id]| == s.rows[id].used <= s.rows[id].budget.GetOr(0)
            && Sum(s.ledger[id]) <= 4 * s.rows[id].budget.GetOr(0)
  {
    hide Lifecycle.Run, TurnsCharged, UnitsOwned;
    StartMetered();
    RunMetered(world, Start(), events);
    var s := Lifecycle.Run(world, Start(), events);
    assert WellFormed(s.rows[id]);
    SumBounded(s.ledger[id], MAX_POLLING_REQUESTS);
  }

  /** The per-turn request limit is never hit: its exception is unreachable in every run. */
  lemma TurnLimitUnreachable(world: World, events: seq<Event>)
    ensures !Lifecycle.Run(world, Start(), events).overrun
  {
    hide Lifecycle.Run, TurnsCharged, UnitsOwned, WellFormedTable;
    StartMetered();
    RunMetered(world, Start(), events);
  }

  lemma StartMetered()
    ensures Metered(Start()) && WellFormedTable(Start().rows)
  {
  }
}
