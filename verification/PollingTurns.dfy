/**
 One polling turn from end to end, left alone: the machine's segments, one after another, do to the watch exactly
 what a few lines about rounds and pages say. Nothing here refers to the segments' own functions.
 */
module PollingTurns {
  import opened Common
  import opened Watches
  import opened WatchLaws
  import opened WatchStore
  import opened ScanQueries
  import opened ScanLaws
  import opened Payments
  import opened Chain
  import opened Lifecycle
  import opened RowSoundness
  import opened LifecycleSafety
  import opened PollingSafety
  import opened LifecycleTheorems

  /** What one turn meets: clocks, rounds and the response body, with fresh names for the turn and its session. */
  datatype Visit = Visit(turn: nat, sweep: nat, at: int, now: int, checkpoint: nat, tip: nat, session: nat, raw: RawPage, kept: bool)

  // ---- What a turn is for ------------------------------------------------------------------

  /** A watch that a polling turn may work on now. */
  predicate Servable(w: Row, at: int) {
    && w.state.Active? && w.evidenceVersion == 1 && w.scanAfter.Some? && w.expiresAt.Some?
    && (w.retryAt.Some? ==> w.retryAt.value <= at) && w.budget.Some? && w.used < w.budget.value
  }

  /** The closing round: kept once fixed; fixed now at the checkpoint if the deadline has passed on the clock and in that block. */
  ghost function ClosingAfter(world: World, w: Row, v: Visit): Option<nat>
    requires w.expiresAt.Some?
  {
    if w.closing.Some? then w.closing
    else if w.expiresAt.value <= v.now && w.expiresAt.value <= world.time(v.checkpoint) * 1000 then Some(v.checkpoint)
    else None
  }

  /** The watch with a unit charged and the closing round of this turn. */
  ghost function Charged(world: World, w: Row, v: Visit): Row
    requires w.expiresAt.Some?
  {
    w.(used := w.used + 1, closing := ClosingAfter(world, w, v))
  }

  /** A session that still fits: it starts where coverage ends and does not pass the closing round. */
  predicate Continues(w: Row, scan: ScanSession)
    requires w.scanAfter.Some?
  {
    scan.minRound == w.scanAfter.value + 1 && (w.closing.None? || scan.maxRound <= w.closing.value)
  }

  ghost predicate HasSession(s: State, w: Row)
    requires w.scanAfter.Some?
  {
    w.id in s.scanOf && s.scanOf[w.id] in s.scans && Continues(w, s.scans[s.scanOf[w.id]])
  }

  /** A new window ends at the window size, the tip or the closing round, whichever is first. */
  function NewReach(world: World, w: Row, tip: nat): nat
    requires w.scanAfter.Some?
  {
    var far := w.scanAfter.value + world.window;
    var near := if tip < far then tip else far;
    if w.closing.Some? && w.closing.value < near then w.closing.value else near
  }

  /** How far the turn's window reaches: the session's own end, or window size, tip and closing round, whichever is first. */
  ghost function Reach(world: World, s: State, w: Row, v: Visit): nat
    requires w.scanAfter.Some?
  {
    if HasSession(s, w) then s.scans[s.scanOf[w.id]].maxRound
    else NewReach(world, w, v.tip)
  }

  /** Which page of the window the turn asks for. */
  ghost function PageWanted(s: State, w: Row): nat
    requires w.scanAfter.Some?
  {
    if HasSession(s, w) then s.scans[s.scanOf[w.id]].consumed else 0
  }

  /** The request for the whole window, in the terms of the query it builds. */
  function WindowQuery(world: World, w: Row, reach: nat): Result<Query>
    requires w.scanAfter.Some?
  {
    BuildQuery(w.spec, world.variant, w.scanAfter.value + 1, reach)
  }

  /** The body is page k of the window, current enough, and validates. */
  ghost predicate Answers(world: World, w: Row, q: Query, k: nat, raw: RawPage) {
    && k < |world.pages(q)| && raw.items == world.pages(q)[k] && TokenSent(raw.next) == NextPageToken(world, q, k)
    && raw.currentRound.Present? && q.maxRound <= raw.currentRound.value
    && ParsePage(raw, q.minRound, q.maxRound, w.spec, world.variant).Ok?
  }

  /** The first transaction of a page, in delivery order, whose fields pay for the watch. */
  function FirstPayment(raws: seq<RawTx>, w: Row): Option<Match> {
    if raws == [] then None
    else if PaysFor(raws[0], w) then Some(Match(raws[0].id.value, raws[0].round.value))
    else FirstPayment(raws[1..], w)
  }

  /** The sweep prunes sessions, lists, and serves the watch. */
  function TurnEvents(w: Row, v: Visit): seq<Event> {
    [PruneScan(w.id), List, BeginPoll(v.turn, v.sweep, w, v.at, v.now), TipArrives(v.turn, v.checkpoint), BlockArrives(v.turn),
     SweepTipArrives(v.turn, v.tip, v.session), PageArrives(v.turn, Fetched(v.raw, v.kept))]
  }

  /** After a turn that got a page the sweep clears the watch's failure; at its end it prunes again. */
  function Aftermath(w: Row, gotPage: bool): seq<Event> {
    if gotPage then [ClearPollingFailure(w.id), PruneScan(w.id)] else [PruneScan(w.id)]
  }

  // ---- Segments ----------------------------------------------------------------------------

  ghost predicate At(s: State, t: nat, pc: Pc, requests: nat) {
    t in s.turns && s.turns[t].pc == pc && s.turns[t].requests == requests
  }

  /** Everything but turns, ledger and history marks. */
  ghost predicate SameWork(s: State, later: State) {
    later.rows == s.rows && later.scans == s.scans && later.scanOf == s.scanOf && later.listed == s.listed
  }

  lemma Asked(s: State, t: nat, turn: Turn, pc: Pc)
    requires turn.requests < 4
    ensures var later := Ask(s, t, turn, pc, MAX_POLLING_REQUESTS);
            SameWork(s, later) && At(later, t, pc, turn.requests + 1)
  {
    hide Bump;
  }

  /** The watch's session still fits the row as it is now: an active row, a window from its cursor, within its closing round. */
  ghost predicate KeepsSession(s: State, id: Id) {
    && id in s.rows && s.rows[id].state.Active? && s.rows[id].evidenceVersion == 1 && s.rows[id].expiresAt.Some?
    && s.rows[id].scanAfter.Some? && id in s.scanOf && s.scanOf[id] in s.scans && Continues(s.rows[id], s.scans[s.scanOf[id]])
  }

  /** Pruning drops a session exactly when it no longer fits. */
  lemma PrunedExactly(s: State, id: Id)
    ensures DropStaleScan(s, id, RowOf(s.rows, id)) == s.(scanOf := if KeepsSession(s, id) then s.scanOf else s.scanOf - {id})
  {
    assert id !in s.scanOf ==> s.scanOf - {id} == s.scanOf;
  }

  lemma Pruned(s: State, w: Row)
    requires w.id in s.rows && s.rows[w.id] == w && w.state.Active? && Pollable(w)
    ensures var later := DropStaleScan(s, w.id, RowOf(s.rows, w.id));
            && later == s.(scanOf := later.scanOf)
            && HasSession(later, w) == HasSession(s, w) && (w.id in later.scanOf <==> HasSession(s, w))
            && (HasSession(s, w) ==> later.scanOf[w.id] == s.scanOf[w.id])
  {
  }

  /** The charge: the row as it was listed is due, so its unit is used and a turn begins. */
  lemma UnitClaimed(world: World, s: State, w: Row, at: int)
    requires WellFormedTable(s.rows) && w.id in s.rows && s.rows[w.id] == w && Servable(w, at)
    ensures ClaimOutcomeOf(s.rows, w.id, PollClaim(w), at) == Claimed
    ensures Apply(world.cfg, s.rows, Claim(w.id, PollClaim(w), at)) == s.rows[w.id := w.(used := w.used + 1)]
  {
    hide Apply, WellFormedTable;
    UpdateAdmitted(world.cfg, s.rows, Claim(w.id, PollClaim(w), at));
  }

  /** The turn's own snapshot of the watch: the row, but for the unit that was charged meanwhile. */
  ghost predicate Current(s: State, w: Row) {
    w.id in s.rows && s.rows[w.id] == w.(used := s.rows[w.id].used) && w.state.Active? && Pollable(w)
  }

  /** The turn waits for its page, or for the failure of a request that could not be built. */
  predicate HasPage(s: State, t: nat) {
    t in s.turns && (s.turns[t].pc.AwaitPage? || s.turns[t].pc.FailingPoll?)
  }

  /** After the closing round is settled: expired at once, or on to the session's next page, or to the tip. */
  ghost predicate Proceeded(world: World, s: State, later: State, t: nat, w: Row, requests: nat)
    requires Pollable(w)
  {
    if w.closing.Some? && w.closing.value <= w.scanAfter.value then
      t !in later.turns && w.id in s.rows && later.rows == s.rows[w.id := s.rows[w.id].(state := Expired)]
      && later.scans == s.scans
    else if HasSession(s, w) then
      && later.rows == s.rows && later.scans == s.scans && later.scanOf == s.scanOf && HasPage(later, t)
      && var session := s.scanOf[w.id];
      var q := WindowQuery(world, w, s.scans[session].maxRound);
      && q.Ok? ==> exists held :: At(later, t, AwaitPage(w, session, Key(q.value, TokenSent(s.scans[session].next)), held), requests + 1)
    else
      && later.rows == s.rows && later.scans == s.scans && w.id !in later.scanOf
      && At(later, t, AwaitSweepTip(w), requests + 1)
  }

  lemma PageRequested(world: World, s: State, t: nat, turn: Turn, w: Row, session: nat)
    requires turn.requests < 4 && session in s.scans && w.scanAfter.Some? && s.scans[session].minRound == w.scanAfter.value + 1
    ensures var later, q := RequestPage(world, s, t, turn, w, session), WindowQuery(world, w, s.scans[session].maxRound);
            && SameWork(s, later) && HasPage(later, t)
            && (q.Ok? ==> exists held :: At(later, t, AwaitPage(w, session, Key(q.value, TokenSent(s.scans[session].next)), held), turn.requests + 1))
  {
    hide Ask, BuildQuery;
    var q := WindowQuery(world, w, s.scans[session].maxRound);
    if q.Ok? {
      var key := Key(q.value, TokenSent(s.scans[session].next));
      var held := if key in s.cache then Some(s.cache[key]) else None;
      Asked(s, t, turn, AwaitPage(w, session, key, held));
    } else {
      Asked(s, t, turn, FailingPoll(w));
    }
  }

  lemma StaleDropped(s: State, w: Row)
    requires w.state.Active? && Pollable(w)
    ensures var later := DropStaleScan(s, w.id, Some(w));
            && later == s.(scanOf := later.scanOf) && (w.id in later.scanOf <==> HasSession(s, w))
            && (HasSession(s, w) ==> later == s)
  {
    if w.id in s.scanOf && HasSession(s, w) {
    } else {
    }
  }

  lemma ClosingReached(world: World, s: State, t: nat, turn: Turn, w: Row)
    requires WellFormedTable(s.rows) && Current(s, w) && w.closing.Some? && w.closing.value <= w.scanAfter.value
    ensures Proceeded(world, s, AfterCheckpoint(world, s, t, turn, w), t, w, turn.requests)
  {
    hide Apply, WellFormedTable, Ask, At, RequestPage, DropStaleScan, BuildQuery, HasSession, WindowQuery;
    UpdateAdmitted(world.cfg, s.rows, MarkExpired(w.id, w.scanAfter.value, w.closing.value));
  }

  lemma SessionResumed(world: World, s: State, t: nat, turn: Turn, w: Row)
    requires Current(s, w) && turn.requests < 4 && !(w.closing.Some? && w.closing.value <= w.scanAfter.value) && HasSession(s, w)
    ensures Proceeded(world, s, AfterCheckpoint(world, s, t, turn, w), t, w, turn.requests)
  {
    StaleDropped(s, w);
    PageRequested(world, s, t, turn, w, s.scanOf[w.id]);
    hide At, RequestPage, DropStaleScan, WindowQuery, Continues, SameWork;
    assert SameWork(s, RequestPage(world, s, t, turn, w, s.scanOf[w.id]));
  }

  lemma TipRequested(world: World, s: State, t: nat, turn: Turn, w: Row)
    requires Current(s, w) && turn.requests < 4 && !(w.closing.Some? && w.closing.value <= w.scanAfter.value) && !HasSession(s, w)
    ensures Proceeded(world, s, AfterCheckpoint(world, s, t, turn, w), t, w, turn.requests)
  {
    StaleDropped(s, w);
    Asked(DropStaleScan(s, w.id, Some(w)), t, turn, AwaitSweepTip(w));
    hide At, Ask, RequestPage, DropStaleScan, HasSession, WindowQuery;
  }

  lemma CheckpointPassed(world: World, s: State, t: nat, turn: Turn, w: Row)
    requires WellFormedTable(s.rows) && Current(s, w) && turn.requests < 4
    ensures Proceeded(world, s, AfterCheckpoint(world, s, t, turn, w), t, w, turn.requests)
  {
    hide WellFormedTable, Proceeded, AfterCheckpoint, HasSession;
    if w.closing.Some? && w.closing.value <= w.scanAfter.value {
      ClosingReached(world, s, t, turn, w);
    } else if HasSession(s, w) {
      SessionResumed(world, s, t, turn, w);
    } else {
      TipRequested(world, s, t, turn, w);
    }
  }

  /** The first segment, up to what the claimed turn does next. */
  lemma ClaimedTurn(world: World, s: State, t: nat, sweep: nat, w: Row, at: int, now: int) returns (turn: Turn, s2: State)
    requires WellFormedTable(s.rows) && w.id in s.rows && s.rows[w.id] == w && Servable(w, at)
    ensures turn.requests == 0 && WellFormedTable(s2.rows) && s2.rows == s.rows[w.id := w.(used := w.used + 1)]
    ensures s2.scans == s.scans && s2.scanOf == s.scanOf && Current(s2, w)
    ensures StepBeginPoll(world, s, t, sweep, w, at, now)
         == if w.closing.None? && w.expiresAt.value <= now then Ask(s2, t, turn, AwaitTip(w), MAX_POLLING_REQUESTS)
            else AfterCheckpoint(world, s2, t, turn, w)
  {
    UnitClaimed(world, s, w, at);
    ClaimKeepsTable(world, s, w, at);
    hide Apply, WellFormedTable, OutcomeOf, AfterCheckpoint, Ask;
    var s1 := Store(world, s, Claim(w.id, PollClaim(w), at));
    turn, s2 := NewTurn(s1, w.id, sweep, FailingPoll(w)), OpenUnit(s1, w.id);
  }

  lemma PollAwaitsTip(world: World, s: State, t: nat, sweep: nat, w: Row, at: int, now: int)
    requires WellFormedTable(s.rows) && w.id in s.rows && s.rows[w.id] == w && Servable(w, at)
    requires w.closing.None? && w.expiresAt.value <= now
    ensures var later := StepBeginPoll(world, s, t, sweep, w, at, now);
            && later.rows == s.rows[w.id := w.(used := w.used + 1)] && later.scans == s.scans && later.scanOf == s.scanOf
            && At(later, t, AwaitTip(w), 1)
  {
    hide StepBeginPoll, WellFormedTable, Ask, At, AfterCheckpoint;
    var turn, s2 := ClaimedTurn(world, s, t, sweep, w, at, now);
    Asked(s2, t, turn, AwaitTip(w));
  }

  lemma PollProceeds(world: World, s: State, t: nat, sweep: nat, w: Row, at: int, now: int)
    requires WellFormedTable(s.rows) && w.id in s.rows && s.rows[w.id] == w && Servable(w, at)
    requires !(w.closing.None? && w.expiresAt.value <= now)
    ensures var later, charged := StepBeginPoll(world, s, t, sweep, w, at, now), s.(rows := s.rows[w.id := w.(used := w.used + 1)]);
            Proceeded(world, charged, later, t, w, 0)
  {
    hide StepBeginPoll, WellFormedTable, Ask, At, AfterCheckpoint, Proceeded;
    var turn, s2 := ClaimedTurn(world, s, t, sweep, w, at, now);
    CheckpointPassed(world, s2, t, turn, w);
    ProceededFrom(world, s2, s.(rows := s.rows[w.id := w.(used := w.used + 1)]), AfterCheckpoint(world, s2, t, turn, w), t, w, 0);
  }

  /** Only rows and sessions matter for how a turn proceeds. */
  lemma ProceededFrom(world: World, s: State, other: State, later: State, t: nat, w: Row, requests: nat)
    requires Pollable(w) && Proceeded(world, s, later, t, w, requests)
    requires other.rows == s.rows && other.scans == s.scans && other.scanOf == s.scanOf
    ensures Proceeded(world, other, later, t, w, requests)
  {
    hide At, WindowQuery;
  }

  lemma ClaimKeepsTable(world: World, s: State, w: Row, at: int)
    requires WellFormedTable(s.rows) && Pollable(w)
    ensures WellFormedTable(Apply(world.cfg, s.rows, Claim(w.id, PollClaim(w), at)))
  {
    ApplyKeeps(world.cfg, s.rows, Claim(w.id, PollClaim(w), at));
  }

  /** The checkpoint block is from before the deadline: no closing round yet. */
  lemma BlockTooEarly(world: World, s: State, t: nat, turn: Turn, w: Row, round: nat)
    requires WellFormedTable(s.rows) && Current(s, w) && turn.pc == AwaitBlock(w, round) && turn.requests < 4
    requires world.time(round) * 1000 < w.expiresAt.value
    ensures Proceeded(world, s, StepBlock(world, s, t, turn), t, w, turn.requests)
  {
    hide WellFormedTable, AfterCheckpoint, Proceeded;
    CheckpointPassed(world, s, t, turn, w);
  }

  /** The checkpoint block is at or past the deadline: its round is the closing round. */
  lemma BlockFixes(world: World, s: State, t: nat, turn: Turn, w: Row, round: nat)
    requires WellFormedTable(s.rows) && Current(s, w) && turn.pc == AwaitBlock(w, round) && turn.requests < 4
    requires w.closing.None? && w.expiresAt.value <= world.time(round) * 1000
    ensures var closing := s.rows[w.id].(closing := Some(round));
            Proceeded(world, s.(rows := s.rows[w.id := closing]), StepBlock(world, s, t, turn), t, closing, turn.requests)
  {
    var s1 := Store(world, s, SetClosing(w.id, round));
    ClosingStored(world, s, w, round);
    hide WellFormedTable, AfterCheckpoint, Proceeded, Store;
    CheckpointPassed(world, s1, t, turn, s1.rows[w.id]);
  }

  lemma ClosingStored(world: World, s: State, w: Row, round: nat)
    requires WellFormedTable(s.rows) && Current(s, w) && w.closing.None?
    ensures Store(world, s, SetClosing(w.id, round)) == s.(rows := s.rows[w.id := s.rows[w.id].(closing := Some(round))])
    ensures var s1 := Store(world, s, SetClosing(w.id, round)); WellFormedTable(s1.rows) && Current(s1, s1.rows[w.id])
  {
    hide Apply, WellFormedTable;
    UpdateAdmitted(world.cfg, s.rows, SetClosing(w.id, round));
  }

  lemma NothingToScan(world: World, s: State, t: nat, turn: Turn, w: Row, tip: nat, session: nat)
    requires Current(s, w) && turn.pc == AwaitSweepTip(w) && NewReach(world, w, tip) <= w.scanAfter.value
    ensures StepSweepTip(world, s, t, turn, tip, session) == Finish(s, t)
  {
  }

  /** The tip arrives: the window opens, and its first page is asked for. */
  lemma WindowOpens(world: World, s: State, t: nat, turn: Turn, w: Row, tip: nat, session: nat)
    requires Current(s, w) && turn.pc == AwaitSweepTip(w) && turn.requests < 4 && NewReach(world, w, tip) > w.scanAfter.value
    ensures var later, reach := StepSweepTip(world, s, t, turn, tip, session), NewReach(world, w, tip);
            var q := WindowQuery(world, w, reach);
            && later.rows == s.rows && later.scanOf == s.scanOf[w.id := session]
            && later.scans == s.scans[session := ScanSession(w.id, w.scanAfter.value + 1, reach, None, {}, 0)]
            && (q.Ok? ==> exists held :: At(later, t, AwaitPage(w, session, Key(q.value, None), held), turn.requests + 1))
  {
    var reach := NewReach(world, w, tip);
    var scan := ScanSession(w.id, w.scanAfter.value + 1, reach, None, {}, 0);
    var s1 := s.(scans := s.scans[session := scan], scanOf := s.scanOf[w.id := session]);
    assert StepSweepTip(world, s, t, turn, tip, session) == RequestPage(world, s1, t, turn, w, session);
    hide At, RequestPage, WindowQuery, StepSweepTip;
    PageRequested(world, s1, t, turn, w, session);
  }

  // ---- The page ----------------------------------------------------------------------------

  /** A session that stands before page k of its window. */
  ghost predicate OnPage(world: World, s: State, w: Row, session: nat, q: Query, k: nat) {
    && session in s.scans && w.scanAfter.Some? && s.scans[session].minRound == w.scanAfter.value + 1
    && s.scans[session].maxRound == q.maxRound && WindowQuery(world, w, q.maxRound) == Ok(q)
    && k < |world.pages(q)| && s.scans[session].consumed == k
    && s.scans[session].next == PageToken(world, q, k) && s.scans[session].seen == SeenTokens(world, q, k)
  }

  lemma {:induction false} FirstFound(raws: seq<RawTx>, w: Row)
    ensures FirstMatch(Directs(raws), w).None? <==> FirstPayment(raws, w).None?
    ensures FirstMatch(Directs(raws), w).Some? ==>
              FirstPayment(raws, w) == Some(Match(FirstMatch(Directs(raws), w).value.tx, FirstMatch(Directs(raws), w).value.round))
  {
    if raws != [] {
      ContractOnFields(raws[0], w);
      FirstFound(raws[1..], w);
      hide PaysFor, Matches, DirectTransfer;
      var rest := Directs(raws[1..]);
      if DirectTransfer(raws[0]).Some? {
        assert ([DirectTransfer(raws[0]).value] + rest)[1..] == rest;
        PaymentNames(raws[0], w);
      } else {
        assert [] + rest == rest;
      }
    }
  }

  lemma PaymentNames(raw: RawTx, w: Row)
    ensures PaysFor(raw, w) ==> DirectTransfer(raw).Some? && raw.id.value == DirectTransfer(raw).value.tx && raw.round.value == DirectTransfer(raw).value.round
  {
    ContractOnFields(raw, w);
    hide DirectTransfer;
  }

  /** The body as the turn reads it. */
  lemma BodyRead(world: World, w: Row, q: Query, k: nat, raw: RawPage) returns (page: Page)
    requires Honest(world) && Answers(world, w, q, k, raw)
    ensures ParsePage(raw, q.minRound, q.maxRound, w.spec, world.variant) == Ok(page)
    ensures page.transactions == Directs(world.pages(q)[k]) && page.next == NextPageToken(world, q, k) && q.maxRound <= page.currentRound
    ensures HonestPage(world, Key(q, TokenSent(PageToken(world, q, k))), raw)
  {
    hide Directs, ParseItems, NextPageToken, ChainSound, LookupSound;
    page := ParsePage(raw, q.minRound, q.maxRound, w.spec, world.variant).value;
    PageContent(raw.items, q.minRound, q.maxRound, w.spec, BuildPlan(w.spec, world.variant).value);
    SentTokenIsPageToken(world, q, k);
  }

  /** With the body at hand the turn consumes its page, and keeps it for its sweep and perhaps in the cache. */
  lemma BodyConsumed(world: World, s: State, t: nat, turn: Turn, w: Row, session: nat, q: Query, k: nat, held: Option<Page>, raw: RawPage, kept: bool)
    returns (s1: State, page: Page)
    requires Honest(world) && Answers(world, w, q, k, raw)
    requires turn.pc == AwaitPage(w, session, Key(q, TokenSent(PageToken(world, q, k))), held)
    ensures StepPage(world, s, t, turn, Fetched(raw, kept)) == Consume(world, s1, t, turn, page)
    ensures s1 == s.(shared := s1.shared, cache := s1.cache)
    ensures page.transactions == Directs(world.pages(q)[k]) && page.next == NextPageToken(world, q, k) && q.maxRound <= page.currentRound
  {
    page := BodyRead(world, w, q, k, raw);
    hide Honest, Answers, HonestPage, ParsePage, Consume, Directs, NextPageToken;
    var key := turn.pc.key;
    var cache := if kept && key.query.maxRound <= page.currentRound then s.cache[key := page] else s.cache;
    s1 := s.(shared := s.shared[(turn.sweep, key) := page], cache := cache);
  }

  ghost predicate SamePages(s: State, later: State) {
    later.shared == s.shared && later.cache == s.cache
  }

  lemma StoreKeepsPages(world: World, s: State, op: Op)
    ensures SamePages(s, Store(world, s, op))
  {
    hide Apply;
  }

  lemma EndKeepsPages(s: State, t: nat, turn: Turn, id: Id, pc: Pc, session: nat, scan: ScanSession)
    ensures SamePages(s, Finish(s, t)) && SamePages(s, Suspend(s, t, turn, pc))
    ensures SamePages(s, ForgetScan(s, id)) && SamePages(s, PutScan(s, session, scan))
  {
  }

  lemma WindowKeepsPages(world: World, s: State, w: Row, maxRound: nat)
    requires w.scanAfter.Some?
    ensures SamePages(s, CompleteWindow(world, s, w, maxRound))
  {
    hide Store, Advances;
    var s1 := Store(world, s, AdvanceScan(w.id, w.scanAfter.value, maxRound));
    StoreKeepsPages(world, s, AdvanceScan(w.id, w.scanAfter.value, maxRound));
    if w.id in s1.rows && s1.rows[w.id].closing.Some? && s1.rows[w.id].scanAfter.Some? {
      StoreKeepsPages(world, s1, MarkExpired(w.id, s1.rows[w.id].scanAfter.value, s1.rows[w.id].closing.value));
    }
  }

  lemma ConsumeKeepsPages(world: World, s: State, t: nat, turn: Turn, page: Page)
    requires turn.pc.AwaitPage?
    ensures SamePages(s, Consume(world, s, t, turn, page))
  {
    hide Store, FirstMatch, CompleteWindow, Finish, Suspend, ForgetScan, PutScan;
    var w, session := turn.pc.w, turn.pc.session;
    var any := ScanSession(w.id, 0, 0, None, {}, 0);
    EndKeepsPages(s, t, turn, w.id, FailingPoll(w), session, any);
    if session in s.scans && w.scanAfter.Some? {
      var scan, found := s.scans[session], FirstMatch(page.transactions, w);
      if found.Some? {
        var s1 := Store(world, s, MarkMatched(w.id, found.value.tx, found.value.round));
        StoreKeepsPages(world, s, MarkMatched(w.id, found.value.tx, found.value.round));
        EndKeepsPages(s1, t, turn, w.id, FailingPoll(w), session, any);
        EndKeepsPages(ForgetScan(s1, w.id), t, turn, w.id, FailingPoll(w), session, any);
      } else if page.next.Some? {
        var later := scan.(next := page.next, seen := scan.seen + {page.next.value}, consumed := scan.consumed + 1);
        EndKeepsPages(s, t, turn, w.id, FailingPoll(w), session, later);
        EndKeepsPages(PutScan(s, session, later), t, turn, w.id, FailingPoll(w), session, any);
      } else {
        var s1 := ForgetScan(s, w.id);
        WindowKeepsPages(world, s1, w, scan.maxRound);
        EndKeepsPages(CompleteWindow(world, s1, w, scan.maxRound), t, turn, w.id, FailingPoll(w), session, any);
      }
    }
  }

  /**
   A validated body is shared with the rest of its sweep, and cached for later ones exactly when the cache keeps it
   and its current round covers the window; whatever the turn itself makes of it.
   */
  lemma BodyShared(world: World, s: State, t: nat, turn: Turn, raw: RawPage, kept: bool)
    requires turn.pc.AwaitPage? && HonestPage(world, turn.pc.key, raw)
    requires ParsePage(raw, turn.pc.key.query.minRound, turn.pc.key.query.maxRound, turn.pc.w.spec, world.variant).Ok?
    ensures var key, later := turn.pc.key, StepPage(world, s, t, turn, Fetched(raw, kept));
            var page := ParsePage(raw, key.query.minRound, key.query.maxRound, turn.pc.w.spec, world.variant).value;
            && later.shared == s.shared[(turn.sweep, key) := page]
            && later.cache == if kept && page.currentRound >= key.query.maxRound then s.cache[key := page] else s.cache
  {
    hide HonestPage, ParsePage, Consume;
    var key := turn.pc.key;
    var page := ParsePage(raw, key.query.minRound, key.query.maxRound, turn.pc.w.spec, world.variant).value;
    var cache := if kept && key.query.maxRound <= page.currentRound then s.cache[key := page] else s.cache;
    ConsumeKeepsPages(world, s.(shared := s.shared[(turn.sweep, key) := page], cache := cache), t, turn, page);
  }

  /** A page with a payment closes the watch with the first one. */
  lemma PageMatches(world: World, s: State, t: nat, turn: Turn, w: Row, session: nat, q: Query, k: nat, held: Option<Page>, raw: RawPage, kept: bool)
    requires Honest(world) && WellFormedTable(s.rows) && Current(s, w) && OnPage(world, s, w, session, q, k) && Answers(world, w, q, k, raw)
    requires turn.pc == AwaitPage(w, session, Key(q, TokenSent(PageToken(world, q, k))), held)
    requires FirstPayment(world.pages(q)[k], w).Some?
    ensures var later := StepPage(world, s, t, turn, Fetched(raw, kept));
            && t !in later.turns && w.id !in later.scanOf
            && later.rows == s.rows[w.id := s.rows[w.id].(state := Matched, matched := FirstPayment(world.pages(q)[k], w))]
  {
    hide Honest, Answers, StepPage, FirstMatch, FirstPayment, Directs, NextPageToken, WellFormedTable, Apply, WindowQuery;
    var s1, page := BodyConsumed(world, s, t, turn, w, session, q, k, held, raw, kept);
    FirstFound(world.pages(q)[k], w);
    var found := FirstMatch(page.transactions, w).value;
    UpdateAdmitted(world.cfg, s1.rows, MarkMatched(w.id, found.tx, found.round));
  }

  /** A page without one, before the last, moves the session to the next page. */
  lemma PageContinues(world: World, s: State, t: nat, turn: Turn, w: Row, session: nat, q: Query, k: nat, held: Option<Page>, raw: RawPage, kept: bool)
    requires Honest(world) && Current(s, w) && OnPage(world, s, w, session, q, k) && Answers(world, w, q, k, raw)
    requires turn.pc == AwaitPage(w, session, Key(q, TokenSent(PageToken(world, q, k))), held)
    requires FirstPayment(world.pages(q)[k], w).None? && k + 1 < |world.pages(q)|
    ensures var later := StepPage(world, s, t, turn, Fetched(raw, kept));
            && t !in later.turns && later.rows == s.rows && later.scanOf == s.scanOf && session in later.scans
            && later.scans == s.scans[session := later.scans[session]] && later.scans[session].consumed == k + 1
            && later.scans[session].minRound == s.scans[session].minRound && later.scans[session].maxRound == s.scans[session].maxRound
            && later.scans[session].watch == s.scans[session].watch
            && later.scans[session].next == PageToken(world, q, k + 1) && later.scans[session].seen == SeenTokens(world, q, k + 1)
  {
    NextPageNew(world, q, k);
    SeenOneMore(world, q, k);
    hide Honest, Answers, StepPage, FirstMatch, FirstPayment, Directs, NextPageToken, WindowQuery, SeenTokens, PageToken;
    var s1, page := BodyConsumed(world, s, t, turn, w, session, q, k, held, raw, kept);
    FirstFound(world.pages(q)[k], w);
  }

  lemma SeenOneMore(world: World, q: Query, k: nat)
    requires k + 1 < |world.pages(q)|
    ensures NextPageToken(world, q, k) == PageToken(world, q, k + 1)
    ensures NextPageToken(world, q, k).Some? && SeenTokens(world, q, k + 1) == SeenTokens(world, q, k) + {NextPageToken(world, q, k).value}
  {
  }

  /** Whoever sends it: a continuation that the session was at, or has seen, fails the turn and moves nothing. */
  lemma RepeatFails(world: World, s: State, t: nat, turn: Turn, page: Page)
    requires turn.pc.AwaitPage? && turn.pc.session in s.scans && turn.pc.w.scanAfter.Some? && page.next.Some?
    requires var scan := s.scans[turn.pc.session];
             && page.currentRound >= scan.maxRound && FirstMatch(page.transactions, turn.pc.w).None?
             && (scan.next == page.next || page.next.value in scan.seen)
    ensures var later := Consume(world, s, t, turn, page);
            SameWork(s, later) && t in later.turns && later.turns[t].pc == FailingPoll(turn.pc.w)
  {
    hide FirstMatch, Store, CompleteWindow;
  }

  lemma NextPageNew(world: World, q: Query, k: nat)
    requires Honest(world) && k + 1 < |world.pages(q)|
    ensures var next := NextPageToken(world, q, k);
            next.Some? && next != PageToken(world, q, k) && next.value !in SeenTokens(world, q, k)
  {
  }

  /** The last page without one covers the window; reaching the closing round expires the watch. */
  lemma PageCompletes(world: World, s: State, t: nat, turn: Turn, w: Row, session: nat, q: Query, k: nat, held: Option<Page>, raw: RawPage, kept: bool)
    requires Honest(world) && WellFormedTable(s.rows) && Current(s, w) && OnPage(world, s, w, session, q, k) && Answers(world, w, q, k, raw)
    requires turn.pc == AwaitPage(w, session, Key(q, TokenSent(PageToken(world, q, k))), held)
    requires FirstPayment(world.pages(q)[k], w).None? && k + 1 == |world.pages(q)| && w.scanAfter.value < q.maxRound
    ensures var later := StepPage(world, s, t, turn, Fetched(raw, kept));
            && t !in later.turns && w.id !in later.scanOf
            && later.rows == s.rows[w.id := s.rows[w.id].(scanAfter := Some(q.maxRound),
                                                          state := if w.closing == Some(q.maxRound) then Expired else Active)]
  {
    hide Honest, Answers, StepPage, FirstMatch, FirstPayment, Directs, WellFormedTable, WindowQuery, CompleteWindow;
    var s1, page := BodyConsumed(world, s, t, turn, w, session, q, k, held, raw, kept);
    FirstFound(world.pages(q)[k], w);
    var s2 := ForgetScan(s1, w.id);
    WindowDone(world, s2, w, q.maxRound);
  }

  lemma WindowDone(world: World, s: State, w: Row, maxRound: nat)
    requires WellFormedTable(s.rows) && Current(s, w) && w.scanAfter.value < maxRound
    ensures CompleteWindow(world, s, w, maxRound)
         == s.(rows := s.rows[w.id := s.rows[w.id].(scanAfter := Some(maxRound), state := if w.closing == Some(maxRound) then Expired else Active)])
  {
    hide Apply, WellFormedTable;
    var advance := AdvanceScan(w.id, w.scanAfter.value, maxRound);
    UpdateAdmitted(world.cfg, s.rows, advance);
    var s1 := Store(world, s, advance);
    if w.closing == Some(maxRound) {
      UpdateAdmitted(world.cfg, s1.rows, MarkExpired(w.id, maxRound, maxRound));
    } else {
    }
  }
}
