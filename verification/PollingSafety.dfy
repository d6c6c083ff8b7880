/** Every poller segment keeps the lifecycle invariant. */
module PollingSafety {
  import opened Common
  import opened Watches
  import opened WatchLaws
  import opened ScanQueries
  import opened ScanLaws
  import opened Chain
  import opened Lifecycle
  import opened RowSoundness
  import opened LifecycleSafety

  lemma TurnsPut(world: World, rows: Rows, scans: map<nat, ScanSession>, proofs: map<nat, ProofSession>,
                 turns: map<nat, Turn>, t: nat, turn: Turn)
    requires TurnsSound(world, rows, scans, proofs, turns) && PcSound(world, rows, scans, proofs, turn.pc)
    ensures TurnsSound(world, rows, scans, proofs, turns[t := turn])
  {
    hide PcSound;
  }

  lemma TurnsDrop(world: World, rows: Rows, scans: map<nat, ScanSession>, proofs: map<nat, ProofSession>,
                  turns: map<nat, Turn>, t: nat)
    requires TurnsSound(world, rows, scans, proofs, turns)
    ensures TurnsSound(world, rows, scans, proofs, Without(turns, t))
  {
    hide PcSound;
  }

  /** Only the turns carry evidence of their own: any sound set of turns may replace them. */
  lemma TurnsReplaced(world: World, s: State, later: State)
    requires Inv(world, s) && TurnsSound(world, s.rows, s.scans, s.proofs, later.turns)
    requires later == s.(turns := later.turns, ledger := later.ledger, overrun := later.overrun)
    ensures Inv(world, later)
  {
    hide TableSound, ListedSound, ScansSound, ScansOwned, ProofsSound, ProofsOwned, PagesSound, TurnsSound;
  }

  lemma AskRuns(s: State, t: nat, turn: Turn, pc: Pc, limit: nat)
    ensures var later := Ask(s, t, turn, pc, limit);
            && later == s.(turns := later.turns, ledger := later.ledger, overrun := later.overrun)
            && later.turns == if turn.requests >= limit then Without(s.turns, t)
                              else s.turns[t := turn.(pc := pc, requests := turn.requests + 1)]
  {
    hide Bump, WatchOf, Without;
    if turn.requests >= limit {
    } else {
    }
  }

  lemma AskKeeps(world: World, s: State, t: nat, turn: Turn, pc: Pc, limit: nat)
    requires Inv(world, s) && PcSound(world, s.rows, s.scans, s.proofs, pc)
    ensures Inv(world, Ask(s, t, turn, pc, limit))
    ensures Ask(s, t, turn, pc, limit).rows == s.rows
  {
    hide TableSound, ListedSound, ScansSound, ScansOwned, ProofsSound, ProofsOwned, PagesSound, TurnsSound, PcSound;
    hide Ask, Without;
    AskRuns(s, t, turn, pc, limit);
    TurnsPut(world, s.rows, s.scans, s.proofs, s.turns, t, turn.(pc := pc, requests := turn.requests + 1));
    TurnsDrop(world, s.rows, s.scans, s.proofs, s.turns, t);
    TurnsReplaced(world, s, Ask(s, t, turn, pc, limit));
  }

  lemma SuspendKeeps(world: World, s: State, t: nat, turn: Turn, pc: Pc)
    requires Inv(world, s) && PcSound(world, s.rows, s.scans, s.proofs, pc)
    ensures Inv(world, Suspend(s, t, turn, pc))
  {
    hide TableSound, ListedSound, ScansSound, ScansOwned, ProofsSound, ProofsOwned, PagesSound, TurnsSound, PcSound;
    TurnsPut(world, s.rows, s.scans, s.proofs, s.turns, t, turn.(pc := pc));
  }

  lemma FinishKeeps(world: World, s: State, t: nat)
    requires Inv(world, s)
    ensures Inv(world, Finish(s, t))
  {
    hide TableSound, ListedSound, ScansSound, ScansOwned, ProofsSound, ProofsOwned, PagesSound, TurnsSound, PcSound;
    TurnsDrop(world, s.rows, s.scans, s.proofs, s.turns, t);
  }

  lemma ForgetScanKeeps(world: World, s: State, id: Id)
    requires Inv(world, s)
    ensures Inv(world, ForgetScan(s, id))
  {
    hide TableSound, ListedSound, ScansSound, ProofsSound, ProofsOwned, PagesSound, TurnsSound, PcSound;
  }

  lemma DropStaleScanKeeps(world: World, s: State, id: Id, w: Option<Row>)
    requires Inv(world, s)
    ensures Inv(world, DropStaleScan(s, id, w))
    ensures var s1 := DropStaleScan(s, id, w);
            && s1.rows == s.rows && s1.scans == s.scans
            && (id in s1.scanOf ==> s1.scanOf[id] in s.scans && s.scans[s1.scanOf[id]].watch == id
                                    && ScanFits(w, s.scans[s1.scanOf[id]]))
  {
    hide TableSound, ListedSound, ScansSound, ProofsSound, ProofsOwned, PagesSound, TurnsSound, PcSound, ScanFits;
    ForgetScanKeeps(world, s, id);
  }

  lemma SentTokenIsPageToken(world: World, q: Query, k: nat)
    requires Honest(world)
    ensures TokenSent(PageToken(world, q, k)) == PageToken(world, q, k)
  {
  }

  /** The request for a session's next page names exactly the first page it has not consumed. */
  lemma NextPageAsked(world: World, s: State, w: Row, session: nat, q: Query)
    requires Honest(world) && Inv(world, s) && Snapshot(s.rows, w) && Pollable(w)
    requires session in s.scans && s.scans[session].watch == w.id
    requires s.scans[session].minRound == w.scanAfter.value + 1
    requires BuildQuery(w.spec, world.variant, s.scans[session].minRound, s.scans[session].maxRound) == Ok(q)
    ensures var key := Key(q, TokenSent(s.scans[session].next));
            var held := if key in s.cache then Some(s.cache[key]) else None;
            PcSound(world, s.rows, s.scans, s.proofs, AwaitPage(w, session, key, held))
  {
    hide TableSound, ListedSound, ScansOwned, ProofsSound, ProofsOwned, TurnsSound, BuildQuery, PageSound, Honest, NoneMatch;
    var scan := s.scans[session];
    var key := Key(q, TokenSent(scan.next));
    assert ScanSound(world, s.rows, scan);
    SentTokenIsPageToken(world, q, scan.consumed);
    assert scan.consumed <= scan.consumed && key.token == PageToken(world, key.query, scan.consumed);
  }

  lemma PollPcSound(world: World, rows: Rows, scans: map<nat, ScanSession>, proofs: map<nat, ProofSession>, w: Row, round: nat)
    requires Snapshot(rows, w) && Pollable(w)
    ensures PcSound(world, rows, scans, proofs, AwaitTip(w)) && PcSound(world, rows, scans, proofs, AwaitBlock(w, round))
    ensures PcSound(world, rows, scans, proofs, AwaitSweepTip(w)) && PcSound(world, rows, scans, proofs, FailingPoll(w))
  {
  }

  lemma RequestPageKeeps(world: World, s: State, t: nat, turn: Turn, w: Row, session: nat)
    requires Honest(world) && Inv(world, s) && Snapshot(s.rows, w) && Pollable(w)
    requires session in s.scans && s.scans[session].watch == w.id
    requires s.scans[session].minRound == w.scanAfter.value + 1
    ensures Inv(world, RequestPage(world, s, t, turn, w, session))
  {
    hide Honest, Inv, Snapshot, Ask, PcSound, BuildQuery;
    var scan := s.scans[session];
    var q := BuildQuery(w.spec, world.variant, scan.minRound, scan.maxRound);
    if q.Thrown? {
      PollPcSound(world, s.rows, s.scans, s.proofs, w, 0);
      AskKeeps(world, s, t, turn, FailingPoll(w), MAX_POLLING_REQUESTS);
    } else {
      NextPageAsked(world, s, w, session, q.value);
      var key := Key(q.value, TokenSent(scan.next));
      var held := if key in s.cache then Some(s.cache[key]) else None;
      AskKeeps(world, s, t, turn, AwaitPage(w, session, key, held), MAX_POLLING_REQUESTS);
    }
  }

  lemma AfterCheckpointKeeps(world: World, s: State, t: nat, turn: Turn, w: Row)
    requires Honest(world) && Inv(world, s) && Snapshot(s.rows, w) && Pollable(w)
    ensures Inv(world, AfterCheckpoint(world, s, t, turn, w))
  {
    hide Honest, Inv, Ask, PcSound, RequestPage, Finish, Apply, Evolves, WellFormed;
    if w.closing.Some? && w.closing.value <= w.scanAfter.value {
      var op := MarkExpired(w.id, w.scanAfter.value, w.closing.value);
      SnapshotDeadline(s.rows, w);
      StoreKeeps(world, s, op);
      FinishKeeps(world, Store(world, s, op), t);
    } else {
      var s1 := DropStaleScan(s, w.id, Some(w));
      DropStaleScanKeeps(world, s, w.id, Some(w));
      if w.id in s1.scanOf {
        RequestPageKeeps(world, s1, t, turn, w, s1.scanOf[w.id]);
      } else {
        PollPcSound(world, s1.rows, s1.scans, s1.proofs, w, 0);
        AskKeeps(world, s1, t, turn, AwaitSweepTip(w), MAX_POLLING_REQUESTS);
      }
    }
  }

  lemma SnapshotDeadline(rows: Rows, w: Row)
    requires Snapshot(rows, w)
    ensures rows[w.id].expiresAt == w.expiresAt && rows[w.id].spec == w.spec
  {
  }

  lemma OpenUnitKeeps(world: World, s: State, id: Id)
    requires Inv(world, s)
    ensures Inv(world, OpenUnit(s, id))
  {
  }

  lemma BeginPollKeeps(world: World, s: State, t: nat, sweep: nat, w: Row, at: int, now: int)
    requires Honest(world) && Inv(world, s) && Snapshot(s.rows, w)
    ensures Inv(world, StepBeginPoll(world, s, t, sweep, w, at, now))
  {
    hide Honest, Inv, Ask, PcSound, AfterCheckpoint, DropStaleScan, Apply, Snapshot, OutcomeOf;
    if Pollable(w) {
      var op := Claim(w.id, PollClaim(w), at);
      var s1 := Store(world, s, op);
      StoreKeeps(world, s, op);
      SnapshotKept(s.rows, s1.rows, w);
      match ClaimOutcomeOf(s.rows, w.id, PollClaim(w), at) {
        case Exhausted => ForgetScanKeeps(world, s1, w.id);
        case Inactive => DropStaleScanKeeps(world, s1, w.id, RowOf(s1.rows, w.id));
        case Claimed => ClaimedPollKeeps(world, s1, t, sweep, w, now);
      }
    }
  }

  /** The first segment of a turn whose work unit has been charged. */
  lemma ClaimedPollKeeps(world: World, s: State, t: nat, sweep: nat, w: Row, now: int)
    requires Honest(world) && Inv(world, s) && Snapshot(s.rows, w) && Pollable(w)
    ensures var turn, s1 := NewTurn(s, w.id, sweep, FailingPoll(w)), OpenUnit(s, w.id);
            Inv(world, if w.closing.None? && w.expiresAt.value <= now
                       then Ask(s1, t, turn, AwaitTip(w), MAX_POLLING_REQUESTS)
                       else AfterCheckpoint(world, s1, t, turn, w))
  {
    hide Honest, Inv, Ask, PcSound, AfterCheckpoint, Snapshot;
    var turn, s1 := NewTurn(s, w.id, sweep, FailingPoll(w)), OpenUnit(s, w.id);
    OpenUnitKeeps(world, s, w.id);
    if w.closing.None? && w.expiresAt.value <= now {
      PollPcSound(world, s1.rows, s1.scans, s1.proofs, w, 0);
      AskKeeps(world, s1, t, turn, AwaitTip(w), MAX_POLLING_REQUESTS);
    } else {
      AfterCheckpointKeeps(world, s1, t, turn, w);
    }
  }

  lemma BlockKeeps(world: World, s: State, t: nat, turn: Turn)
    requires Honest(world) && Inv(world, s) && turn.pc.AwaitBlock?
    requires Snapshot(s.rows, turn.pc.w) && Pollable(turn.pc.w)
    ensures Inv(world, StepBlock(world, s, t, turn))
  {
    hide Honest, Inv, PcSound, AfterCheckpoint, Apply, Finish, Snapshot;
    var w, round := turn.pc.w, turn.pc.round;
    if world.time(round) * 1000 < w.expiresAt.value {
      AfterCheckpointKeeps(world, s, t, turn, w);
    } else {
      var op := SetClosing(w.id, round);
      var s1 := Store(world, s, op);
      SnapshotIsRow(s.rows, w);
      SnapshotDeadline(s.rows, w);
      StoreKeeps(world, s, op);
      if w.id in s1.rows && Pollable(s1.rows[w.id]) {
        CurrentRowSnapshot(world, s1, w.id);
        AfterCheckpointKeeps(world, s1, t, turn, s1.rows[w.id]);
      } else {
        FinishKeeps(world, s1, t);
      }
    }
  }

  lemma SnapshotIsRow(rows: Rows, w: Row)
    requires Snapshot(rows, w)
    ensures w.id in rows
  {
  }

  lemma CurrentRowSnapshot(world: World, s: State, id: Id)
    requires Inv(world, s) && id in s.rows
    ensures Snapshot(s.rows, s.rows[id]) && s.rows[id].id == id
  {
    hide ListedSound, ScansSound, ScansOwned, ProofsSound, ProofsOwned, PagesSound, TurnsSound, RowSound;
  }

  /** Adding a fresh session, or consuming a page of an existing one, disturbs no other evidence. */
  ghost predicate ScansGrow(before: map<nat, ScanSession>, after: map<nat, ScanSession>) {
    forall i | i in before ::
      && i in after && after[i].watch == before[i].watch
      && after[i].minRound == before[i].minRound && after[i].maxRound == before[i].maxRound
      && before[i].consumed <= after[i].consumed
  }

  lemma ScansGrowPc(world: World, rows: Rows, before: map<nat, ScanSession>, after: map<nat, ScanSession>,
                    proofs: map<nat, ProofSession>, pc: Pc)
    requires PcSound(world, rows, before, proofs, pc) && ScansGrow(before, after)
    ensures PcSound(world, rows, after, proofs, pc)
  {
    if pc.AwaitPage? {
      var j: nat :| j <= before[pc.session].consumed && pc.key.token == PageToken(world, pc.key.query, j);
      assert j <= after[pc.session].consumed;
    }
  }

  lemma ScansGrowKeeps(world: World, s: State, scans: map<nat, ScanSession>)
    requires Inv(world, s) && ScansGrow(s.scans, scans)
    requires forall i | i in scans :: ScanSound(world, s.rows, scans[i])
    ensures Inv(world, s.(scans := scans))
  {
    forall t | t in s.turns ensures PcSound(world, s.rows, scans, s.proofs, s.turns[t].pc) {
      ScansGrowPc(world, s.rows, s.scans, scans, s.proofs, s.turns[t].pc);
    }
  }

  lemma NewSessionKeeps(world: World, s: State, w: Row, maxRound: nat, session: nat)
    requires Honest(world) && Inv(world, s) && Snapshot(s.rows, w) && Pollable(w) && session !in s.scans
    requires w.scanAfter.value < maxRound
    ensures var scan := ScanSession(w.id, w.scanAfter.value + 1, maxRound, None, {}, 0);
            Inv(world, s.(scans := s.scans[session := scan], scanOf := s.scanOf[w.id := session]))
  {
    hide Honest, TableSound, ListedSound, ProofsSound, ProofsOwned, PagesSound, TurnsSound, PcSound, ScanSound, Evolves;
    var scan := ScanSession(w.id, w.scanAfter.value + 1, maxRound, None, {}, 0);
    SnapshotBaseline(s.rows, w);
    NewScanSound(world, s.rows, scan);
    ScansGrowKeeps(world, s, s.scans[session := scan]);
  }

  lemma SnapshotBaseline(rows: Rows, w: Row)
    requires Snapshot(rows, w) && w.scanAfter.Some?
    ensures w.id in rows && rows[w.id].activationRound.Some?
  {
  }

  lemma SweepTipKeeps(world: World, s: State, t: nat, turn: Turn, round: nat, session: nat)
    requires Honest(world) && Inv(world, s) && turn.pc.AwaitSweepTip? && session !in s.scans
    requires Snapshot(s.rows, turn.pc.w) && Pollable(turn.pc.w)
    ensures Inv(world, StepSweepTip(world, s, t, turn, round, session))
  {
    hide Honest, Inv, Snapshot, RequestPage, Finish, WindowEnd;
    var w := turn.pc.w;
    var maxRound := WindowEnd(world, w, round);
    if maxRound <= w.scanAfter.value {
      FinishKeeps(world, s, t);
    } else {
      var scan := ScanSession(w.id, w.scanAfter.value + 1, maxRound, None, {}, 0);
      var s1 := s.(scans := s.scans[session := scan], scanOf := s.scanOf[w.id := session]);
      NewSessionKeeps(world, s, w, maxRound, session);
      RequestPageKeeps(world, s1, t, turn, w, session);
    }
  }

  lemma NewScanSound(world: World, rows: Rows, scan: ScanSession)
    requires Honest(world) && scan.watch in rows && rows[scan.watch].activationRound.Some?
    requires scan.next.None? && scan.seen == {} && scan.consumed == 0 && scan.minRound <= scan.maxRound
    ensures ScanSound(world, rows, scan)
  {
    var q := BuildQuery(rows[scan.watch].spec, world.variant, scan.minRound, scan.maxRound);
    if q.Ok? { assert SeenTokens(world, q.value, 0) == {}; }
  }

  // ---- Consuming a page --------------------------------------------------------------------

  lemma {:induction false} FirstMatchFinds(ts: seq<Transfer>, w: Row)
    ensures FirstMatch(ts, w).None? <==> NoneMatch(ts, w)
    ensures FirstMatch(ts, w).Some? ==>
              exists p: nat :: p < |ts| && ts[p] == FirstMatch(ts, w).value && Matches(ts[p], w)
                && forall i: nat | i < p :: !Matches(ts[i], w)
  {
    if ts != [] {
      if Matches(ts[0], w) {
        assert 0 < |ts| && ts[0] == FirstMatch(ts, w).value;
      } else {
        FirstMatchFinds(ts[1..], w);
        if FirstMatch(ts[1..], w).Some? {
          var p: nat :| p < |ts[1..]| && ts[1..][p] == FirstMatch(ts, w).value && Matches(ts[1..][p], w)
            && forall i: nat | i < p :: !Matches(ts[1..][i], w);
          assert ts[p + 1] == FirstMatch(ts, w).value;
          forall i: nat | i < p + 1 ensures !Matches(ts[i], w) {
            if i > 0 { assert ts[i] == ts[1..][i - 1]; }
          }
        }
        if NoneMatch(ts[1..], w) {
          forall i | 0 <= i < |ts| ensures !Matches(ts[i], w) {
            if i > 0 { assert ts[i] == ts[1..][i - 1]; }
          }
        }
        if NoneMatch(ts, w) {
          forall i | 0 <= i < |ts[1..]| ensures !Matches(ts[1..][i], w) {
            assert ts[1..][i] == ts[i + 1];
          }
        }
      }
    }
  }

  lemma PageTokenInjective(world: World, q: Query, i: nat, j: nat)
    requires Honest(world) && PageToken(world, q, i) == PageToken(world, q, j)
    ensures i == j
  {
  }

  /** The page that has arrived for a suspended turn, identified within the partition. */
  ghost predicate Arrived(world: World, rows: Rows, scans: map<nat, ScanSession>, w: Row, session: nat,
                          q: Query, page: Page, k: nat)
  {
    && session in scans && scans[session].watch == w.id && Snapshot(rows, w) && Pollable(w)
    && q.minRound == scans[session].minRound == w.scanAfter.value + 1 && q.maxRound == scans[session].maxRound
    && BuildQuery(w.spec, world.variant, q.minRound, q.maxRound) == Ok(q)
    && k < |world.pages(q)| && k <= scans[session].consumed
    && page.transactions == Directs(world.pages(q)[k])
    && page.next == NextPageToken(world, q, k)
    && ScanSound(world, rows, scans[session])
    && Covered(world, w, w.scanAfter.value) && SameMatches(w, rows[w.id])
  }

  ghost predicate SameMatches(w: Row, later: Row) {
    forall t :: Matches(t, w) == Matches(t, later)
  }

  lemma PageArrived(world: World, s: State, w: Row, session: nat, key: Key, held: Option<Page>, page: Page) returns (k: nat)
    requires Honest(world) && Inv(world, s)
    requires PcSound(world, s.rows, s.scans, s.proofs, AwaitPage(w, session, key, held))
    requires PageSound(world, key, page) && s.scans[session].maxRound <= page.currentRound
    ensures Arrived(world, s.rows, s.scans, w, session, key.query, page, k)
  {
    hide ListedSound, ScansOwned, ProofsSound, ProofsOwned, PagesSound, TurnsSound, ScanSound, Honest, BuildQuery;
    hide Evolves, WellFormed, NextPageToken, RowSound, PageToken;
    var q := key.query;
    var j: nat :| j <= s.scans[session].consumed && key.token == PageToken(world, q, j);
    assert q.maxRound == s.scans[session].maxRound && q.minRound == s.scans[session].minRound by { QueryWindow(world, w, q, s.scans[session]); }
    k :| k < |world.pages(q)| && key.token == PageToken(world, q, k)
      && page.transactions == Directs(world.pages(q)[k]) && page.next == NextPageToken(world, q, k);
    PageTokenInjective(world, q, j, k);
    assert ScanSound(world, s.rows, s.scans[session]);
    SnapshotSpeaks(world, s.rows, w);
  }

  lemma QueryWindow(world: World, w: Row, q: Query, scan: ScanSession)
    requires BuildQuery(w.spec, world.variant, scan.minRound, scan.maxRound) == Ok(q)
    ensures q.minRound == scan.minRound && q.maxRound == scan.maxRound
  {
  }

  lemma SnapshotSpeaks(world: World, rows: Rows, w: Row)
    requires TableSound(world, rows) && Snapshot(rows, w) && w.scanAfter.Some?
    ensures Covered(world, w, w.scanAfter.value) && SameMatches(w, rows[w.id])
  {
    SnapshotContract(world, rows, w);
    assert RowSound(world, rows[w.id]);
    assert Covered(world, rows[w.id], rows[w.id].scanAfter.value);
  }

  lemma SnapshotContract(world: World, rows: Rows, w: Row)
    requires Snapshot(rows, w) && w.scanAfter.Some?
    ensures SameMatches(w, rows[w.id])
    ensures forall n: nat :: Covered(world, w, n) == Covered(world, rows[w.id], n)
    ensures forall m :: Paid(world, w, m) == Paid(world, rows[w.id], m)
  {
    SameContract(world, w, rows[w.id]);
  }

  lemma MatchJustified(world: World, rows: Rows, scans: map<nat, ScanSession>, w: Row, session: nat,
                       q: Query, page: Page, k: nat)
    requires Honest(world) && Arrived(world, rows, scans, w, session, q, page, k)
    requires FirstMatch(page.transactions, w).Some?
    ensures var t := FirstMatch(page.transactions, w).value;
            Justified(world, MarkMatched(w.id, t.tx, t.round), rows[w.id])
  {
    hide Snapshot, BuildQuery, Covered, Directs, FirstMatch, NextPageToken, PageToken, FirstDelivered, NoneMatch, ScanSound;
    FirstMatchFinds(page.transactions, w);
    var p: nat :| p < |page.transactions| && page.transactions[p] == FirstMatch(page.transactions, w).value
      && Matches(page.transactions[p], w) && forall i: nat | i < p :: !Matches(page.transactions[i], w);
    FirstHere(world, rows, scans, w, session, q, page, k, p);
    assert Paid(world, w, Match(page.transactions[p].tx, page.transactions[p].round));
    SnapshotContract(world, rows, w);
  }

  lemma FirstHere(world: World, rows: Rows, scans: map<nat, ScanSession>, w: Row, session: nat,
                  q: Query, page: Page, k: nat, p: nat)
    requires Honest(world) && Arrived(world, rows, scans, w, session, q, page, k)
    requires p < |page.transactions| && Matches(page.transactions[p], w)
    requires forall i: nat | i < p :: !Matches(page.transactions[i], w)
    ensures FirstDelivered(world, w, q, k, p, page.transactions[p])
  {
    hide Snapshot, BuildQuery, Covered, Directs, NextPageToken, PageToken, NoneMatch, ScanSound, Matches, ChainSound, LookupSound;
    EarlierPagesEmpty(world, rows, scans, w, session, q, page, k);
    assert page.transactions[p] in Directs(world.pages(q)[k]);
  }

  lemma EarlierPagesEmpty(world: World, rows: Rows, scans: map<nat, ScanSession>, w: Row, session: nat,
                          q: Query, page: Page, k: nat)
    requires Arrived(world, rows, scans, w, session, q, page, k)
    ensures rows[w.id].spec == w.spec
    ensures forall j: nat | j < k :: NoneMatch(Directs(world.pages(q)[j]), w)
  {
    hide Directs, Covered, Honest;
    var scan := scans[session];
    assert BuildQuery(rows[scan.watch].spec, world.variant, scan.minRound, scan.maxRound) == Ok(q);
    forall j: nat | j < k ensures NoneMatch(Directs(world.pages(q)[j]), w) {
      assert NoneMatch(Directs(world.pages(q)[j]), rows[w.id]);
    }
  }

  lemma SeenToken(world: World, q: Query, j: nat, k: nat)
    ensures 1 <= j <= k ==> world.token(q, j) in SeenTokens(world, q, k)
  {
  }

  /** A continuation token is accepted only by the session that has consumed exactly the pages before it. */
  lemma OnlyNewTokens(world: World, rows: Rows, scans: map<nat, ScanSession>, w: Row, session: nat,
                      q: Query, page: Page, k: nat)
    requires Honest(world) && Arrived(world, rows, scans, w, session, q, page, k)
    requires page.next.Some? && page.next != scans[session].next && page.next.value !in scans[session].seen
    ensures k == scans[session].consumed
  {
    var scan := scans[session];
    assert page.next == PageToken(world, q, k + 1);
    SeenToken(world, q, k + 1, scan.consumed);
  }

  lemma NextScanSound(world: World, rows: Rows, scans: map<nat, ScanSession>, w: Row, session: nat,
                      q: Query, page: Page, k: nat)
    requires Honest(world) && Arrived(world, rows, scans, w, session, q, page, k)
    requires page.next.Some? && page.next != scans[session].next && page.next.value !in scans[session].seen
    requires NoneMatch(page.transactions, w)
    ensures var scan := scans[session];
            ScanSound(world, rows, scan.(next := page.next, seen := scan.seen + {page.next.value}, consumed := scan.consumed + 1))
  {
    hide Honest, Covered, Directs, Snapshot, BuildQuery;
    var scan := scans[session];
    OnlyNewTokens(world, rows, scans, w, session, q, page, k);
    EarlierPagesEmpty(world, rows, scans, w, session, q, page, k);
    assert NoneMatch(Directs(world.pages(q)[k]), rows[w.id]);
    assert SeenTokens(world, q, k + 1) == SeenTokens(world, q, k) + {world.token(q, k + 1)};
  }

  /** The last page arrives without a match: the whole window is covered. */
  lemma WindowJustified(world: World, rows: Rows, scans: map<nat, ScanSession>, w: Row, session: nat,
                        q: Query, page: Page, k: nat)
    requires Honest(world) && Arrived(world, rows, scans, w, session, q, page, k)
    requires page.next.None? && NoneMatch(page.transactions, w)
    ensures Covered(world, rows[w.id], q.maxRound)
  {
    hide Honest, Covered, Directs, Snapshot, BuildQuery, ScanSound, NoneMatch;
    assert k + 1 == |world.pages(q)|;
    EarlierPagesEmpty(world, rows, scans, w, session, q, page, k);
    WindowCovers(world, w, q, w.scanAfter.value);
    SnapshotContract(world, rows, w);
  }

  lemma CompleteWindowKeeps(world: World, s: State, w: Row, maxRound: nat)
    requires Honest(world) && Inv(world, s) && Snapshot(s.rows, w) && Pollable(w)
    requires Covered(world, s.rows[w.id], maxRound)
    ensures Inv(world, CompleteWindow(world, s, w, maxRound))
  {
    var op := AdvanceScan(w.id, w.scanAfter.value, maxRound);
    var s1 := Store(world, s, op);
    StoreKeeps(world, s, op);
    if Advances(s.rows, w.id, w.scanAfter.value, maxRound) && w.id in s1.rows {
      var updated := s1.rows[w.id];
      if updated.closing.Some? && updated.scanAfter == updated.closing {
        StoreKeeps(world, s1, MarkExpired(w.id, updated.scanAfter.value, updated.closing.value));
      }
    }
  }

  lemma MatchedKeeps(world: World, s: State, t: nat, w: Row, session: nat, q: Query, page: Page, k: nat)
    requires Honest(world) && Inv(world, s) && Arrived(world, s.rows, s.scans, w, session, q, page, k)
    requires FirstMatch(page.transactions, w).Some?
    ensures var found := FirstMatch(page.transactions, w).value;
            var s1 := Store(world, s, MarkMatched(w.id, found.tx, found.round));
            Inv(world, Finish(ForgetScan(s1, w.id), t))
  {
    hide Honest, Inv, Arrived, Apply, Justified, FirstMatch, Finish, Without;
    var found := FirstMatch(page.transactions, w).value;
    var op := MarkMatched(w.id, found.tx, found.round);
    var s1 := Store(world, s, op);
    MatchJustified(world, s.rows, s.scans, w, session, q, page, k);
    StoreKeeps(world, s, op);
    ForgetScanKeeps(world, s1, w.id);
    FinishKeeps(world, ForgetScan(s1, w.id), t);
  }

  lemma ContinuedKeeps(world: World, s: State, t: nat, w: Row, session: nat, q: Query, page: Page, k: nat)
    requires Honest(world) && Inv(world, s) && Arrived(world, s.rows, s.scans, w, session, q, page, k)
    requires page.next.Some? && page.next != s.scans[session].next && page.next.value !in s.scans[session].seen
    requires NoneMatch(page.transactions, w)
    ensures var scan := s.scans[session];
            var later := scan.(next := page.next, seen := scan.seen + {page.next.value}, consumed := scan.consumed + 1);
            Inv(world, Finish(PutScan(s, session, later), t))
  {
    hide Honest, Finish, NoneMatch, ScanSound, BuildQuery, Covered, Snapshot, SameMatches;
    hide TableSound, ListedSound, ScansOwned, ProofsSound, ProofsOwned, PagesSound, TurnsSound;
    var scan := s.scans[session];
    var later := scan.(next := page.next, seen := scan.seen + {page.next.value}, consumed := scan.consumed + 1);
    NextScanSound(world, s.rows, s.scans, w, session, q, page, k);
    ScansGrowKeeps(world, s, s.scans[session := later]);
    FinishKeeps(world, PutScan(s, session, later), t);
  }

  lemma WindowDoneKeeps(world: World, s: State, t: nat, w: Row, session: nat, q: Query, page: Page, k: nat)
    requires Honest(world) && Inv(world, s) && Arrived(world, s.rows, s.scans, w, session, q, page, k)
    requires page.next.None? && NoneMatch(page.transactions, w)
    ensures Inv(world, Finish(CompleteWindow(world, ForgetScan(s, w.id), w, q.maxRound), t))
  {
    hide Honest, Inv, CompleteWindow, Finish, NoneMatch, ScanSound, Snapshot, TableSound, BuildQuery, Covered, Without;
    var s1 := ForgetScan(s, w.id);
    WindowJustified(world, s.rows, s.scans, w, session, q, page, k);
    ForgetScanKeeps(world, s, w.id);
    CompleteWindowKeeps(world, s1, w, q.maxRound);
    FinishKeeps(world, CompleteWindow(world, s1, w, q.maxRound), t);
  }

  lemma ConsumeKeeps(world: World, s: State, t: nat, turn: Turn, page: Page)
    requires Honest(world) && Inv(world, s) && turn.pc.AwaitPage?
    requires PcSound(world, s.rows, s.scans, s.proofs, turn.pc) && PageSound(world, turn.pc.key, page)
    ensures Inv(world, Consume(world, s, t, turn, page))
  {
    hide Honest, Inv, PcSound, PageSound, CompleteWindow, Finish, NoneMatch, Snapshot, TableSound, ScanSound, BuildQuery, Apply, Without, FirstMatch;
    var w, session, key := turn.pc.w, turn.pc.session, turn.pc.key;
    AwaitPageFacts(world, s.rows, s.scans, s.proofs, turn.pc);
    var scan := s.scans[session];
    if page.currentRound < scan.maxRound {
      SuspendKeeps(world, s, t, turn, FailingPoll(w));
    } else {
      var k := PageArrived(world, s, w, session, key, turn.pc.held, page);
      FirstMatchFinds(page.transactions, w);
      if FirstMatch(page.transactions, w).Some? {
        MatchedKeeps(world, s, t, w, session, key.query, page, k);
      } else if page.next.Some? {
        if page.next == scan.next || page.next.value in scan.seen {
          SuspendKeeps(world, s, t, turn, FailingPoll(w));
        } else {
          ContinuedKeeps(world, s, t, w, session, key.query, page, k);
        }
      } else {
        WindowDoneKeeps(world, s, t, w, session, key.query, page, k);
      }
    }
  }

  lemma AwaitPageFacts(world: World, rows: Rows, scans: map<nat, ScanSession>, proofs: map<nat, ProofSession>, pc: Pc)
    requires pc.AwaitPage? && PcSound(world, rows, scans, proofs, pc)
    ensures pc.session in scans && pc.w.scanAfter.Some? && PcSound(world, rows, scans, proofs, FailingPoll(pc.w))
    ensures pc.held.Some? ==> PageSound(world, pc.key, pc.held.value)
  {
  }

  /** Validation of an honest body yields a sound page. */
  lemma ParsedPageSound(world: World, key: Key, raw: RawPage, spec: Spec)
    requires HonestPage(world, key, raw)
    requires ParsePage(raw, key.query.minRound, key.query.maxRound, spec, world.variant).Ok?
    ensures PageSound(world, key, ParsePage(raw, key.query.minRound, key.query.maxRound, spec, world.variant).value)
  {
    PageContent(raw.items, key.query.minRound, key.query.maxRound, spec, BuildPlan(spec, world.variant).value);
  }

  lemma RememberPageKeeps(world: World, s: State, sweep: nat, key: Key, page: Page)
    requires Inv(world, s) && PageSound(world, key, page)
    ensures Inv(world, s.(shared := s.shared[(sweep, key) := page]))
    ensures Inv(world, s.(shared := s.shared[(sweep, key) := page], cache := s.cache[key := page]))
  {
    hide TableSound, ListedSound, ScansSound, ScansOwned, ProofsSound, ProofsOwned, TurnsSound, PageSound;
  }

  lemma FetchedKeeps(world: World, s: State, t: nat, turn: Turn, raw: RawPage, kept: bool)
    requires Honest(world) && Inv(world, s) && turn.pc.AwaitPage?
    requires PcSound(world, s.rows, s.scans, s.proofs, turn.pc)
    ensures Inv(world, StepPage(world, s, t, turn, Fetched(raw, kept)))
  {
    hide Honest, Inv, PcSound, Consume, Suspend, HonestPage, ParsePage, PageSound;
    var w, key := turn.pc.w, turn.pc.key;
    AwaitPageFacts(world, s.rows, s.scans, s.proofs, turn.pc);
    if HonestPage(world, key, raw) {
      var parsed := ParsePage(raw, key.query.minRound, key.query.maxRound, w.spec, world.variant);
      if parsed.Thrown? {
        SuspendKeeps(world, s, t, turn, FailingPoll(w));
      } else {
        var page := parsed.value;
        ParsedPageSound(world, key, raw, w.spec);
        RememberPageKeeps(world, s, turn.sweep, key, page);
        var cache := if kept && key.query.maxRound <= page.currentRound then s.cache[key := page] else s.cache;
        ConsumeKeeps(world, s.(shared := s.shared[(turn.sweep, key) := page], cache := cache), t, turn, page);
      }
    }
  }

  lemma SharedPageSound(world: World, s: State, sweep: nat, key: Key)
    requires Inv(world, s) && (sweep, key) in s.shared
    ensures PageSound(world, key, s.shared[(sweep, key)])
  {
    hide TableSound, ListedSound, ScansSound, ScansOwned, ProofsSound, ProofsOwned, TurnsSound, PageSound;
  }

  lemma PageKeeps(world: World, s: State, t: nat, turn: Turn, source: Source)
    requires Honest(world) && Inv(world, s) && turn.pc.AwaitPage?
    requires PcSound(world, s.rows, s.scans, s.proofs, turn.pc)
    ensures Inv(world, StepPage(world, s, t, turn, source))
  {
    hide Honest, Inv, PcSound, Consume, Suspend, HonestPage, ParsePage, PageSound;
    match source {
      case Held =>
        AwaitPageFacts(world, s.rows, s.scans, s.proofs, turn.pc);
        if turn.pc.held.Some? { ConsumeKeeps(world, s, t, turn, turn.pc.held.value); }
      case FromSweep =>
        if (turn.sweep, turn.pc.key) in s.shared {
          SharedPageSound(world, s, turn.sweep, turn.pc.key);
          ConsumeKeeps(world, s, t, turn, s.shared[(turn.sweep, turn.pc.key)]);
        }
      case Fetched(raw, kept) => FetchedKeeps(world, s, t, turn, raw, kept);
    }
  }

  lemma PollFailsKeeps(world: World, s: State, t: nat, turn: Turn, f: Failure, retryAt: Option<int>)
    requires Inv(world, s) && !turn.pc.AwaitActivation?
    ensures Inv(world, StepPollFails(world, s, t, turn, f, retryAt))
  {
    var w := turn.pc.w;
    var s1 := s.(scanOf := Without(s.scanOf, w.id), cache := map[]);
    StoreKeeps(world, s1, RecordFailure(w.id, f, retryAt));
  }
}
