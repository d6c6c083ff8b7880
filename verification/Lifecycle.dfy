/**
 The poller, the reconciler and the settlement hooks against one store, split at every await.

 Each event is one synchronous segment. Segments of different turns, and of different sweeps,
 interleave freely; a crash drops everything but the rows. Snapshots are the rows a worker listed
 earlier; sessions are shared mutable objects that a turn may still hold after they were replaced.
 `consumed`, `ledger` and `overrun` only record history.
 */
module Lifecycle {
  import opened Common
  import opened Watches
  import opened ScanQueries
  import opened Chain

  const MAX_POLLING_REQUESTS: nat := 4
  const MAX_RECONCILIATION_REQUESTS: nat := 3

  datatype ScanSession = ScanSession(
    watch: Id,
    minRound: nat,
    maxRound: nat,
    next: Option<string>,
    seen: set<string>,
    consumed: nat)

  datatype ProofSession = ProofSession(
    watch: Id,
    tx: string,
    next: Option<string>,
    seen: set<string>,
    coverage: Option<nat>,
    consumed: nat)

  /** Where a turn is suspended, with the snapshot of the watch it works on. */
  datatype Pc =
    | AwaitTip(w: Row)
    | AwaitBlock(w: Row, round: nat)
    | AwaitSweepTip(w: Row)
    | AwaitPage(w: Row, session: nat, key: Key, held: Option<Page>)
    | FailingPoll(w: Row)
    | AwaitLookup(w: Row)
    | AwaitRound(w: Row)
    | AwaitAbsence(w: Row, session: nat, token: Option<string>)
    | FailingProof(w: Row)
    | AwaitActivation(watch: Id, ev: Evidence)

  datatype Turn = Turn(sweep: nat, pc: Pc, unit: nat, requests: nat)

  datatype State = State(
    rows: Rows,
    listed: set<Row>,
    scans: map<nat, ScanSession>,
    scanOf: map<Id, nat>,
    proofs: map<nat, ProofSession>,
    proofOf: map<Id, nat>,
    turns: map<nat, Turn>,
    cache: map<Key, Page>,
    shared: map<(nat, Key), Page>,
    ledger: map<Id, seq<nat>>,
    overrun: bool)

  /** Where a page comes from; the historical cache may decline to keep a fetched one. */
  datatype Source = Fetched(raw: RawPage, kept: bool) | Held | FromSweep

  datatype Event =
    | List
    | PrepareWatch(id: Id, spec: Spec, intent: Option<Intent>, at: int)
    | SettlementFailed(id: Id)
    | Settled(turn: nat, id: Id, ev: Evidence)
    | ActivationLookup(turn: nat, found: Option<Transfer>, at: int)
    | BeginPoll(turn: nat, sweep: nat, w: Row, at: int, now: int)
    | TipArrives(turn: nat, round: nat)
    | BlockArrives(turn: nat)
    | SweepTipArrives(turn: nat, round: nat, session: nat)
    | PageArrives(turn: nat, source: Source)
    | PollFails(turn: nat, failure: Failure, retryAt: Option<int>)
    | BeginReconcile(turn: nat, w: Row, at: int, nextAt: int)
    | LookupArrives(turn: nat, found: Option<Transfer>, at: int)
    | RoundArrives(turn: nat, round: nat, session: nat, nextAt: int)
    | AbsenceArrives(turn: nat, page: AbsencePage, at: int, nextAt: int)
    | ProofFails(turn: nat, nextAt: int)
    | Interrupted(turn: nat)
    | PruneScan(id: Id)
    | PruneProof(id: Id)
    | ClearPollingFailure(id: Id)
    | Evict(key: Key)
    | Crash

  // ---- Small helpers -----------------------------------------------------------------------

  function Without<K, V>(m: map<K, V>, k: K): map<K, V> { m - {k} }

  function WatchOf(pc: Pc): Id {
    if pc.AwaitActivation? then pc.watch else pc.w.id
  }

  function RowOf(rows: Rows, id: Id): Option<Row> {
    if id in rows then Some(rows[id]) else None
  }

  ghost function Store(world: World, s: State, op: Op): (later: State)
    ensures later.rows == Apply(world.cfg, s.rows, op)
  {
    s.(rows := Apply(world.cfg, s.rows, op))
  }

  function Finish(s: State, t: nat): (later: State)
    ensures later.rows == s.rows
  {
    s.(turns := Without(s.turns, t))
  }

  function ForgetScan(s: State, id: Id): (later: State)
    ensures later.rows == s.rows
  {
    s.(scanOf := Without(s.scanOf, id))
  }

  function ForgetProof(s: State, id: Id): (later: State)
    ensures later.rows == s.rows
  {
    s.(proofOf := Without(s.proofOf, id))
  }

  function PutScan(s: State, session: nat, scan: ScanSession): (later: State)
    ensures later.rows == s.rows
  {
    s.(scans := s.scans[session := scan])
  }

  function PutProof(s: State, session: nat, proof: ProofSession): (later: State)
    ensures later.rows == s.rows
  {
    s.(proofs := s.proofs[session := proof])
  }

  function Suspend(s: State, t: nat, turn: Turn, pc: Pc): (later: State)
    ensures later.rows == s.rows
  {
    s.(turns := s.turns[t := turn.(pc := pc)])
  }

  function Bump(ledger: map<Id, seq<nat>>, id: Id, unit: nat): map<Id, seq<nat>> {
    if id in ledger && unit < |ledger[id]| then ledger[id := ledger[id][unit := ledger[id][unit] + 1]] else ledger
  }

  /** IndexerRequestTurnBudget.run: charge one request, or fail on the turn's limit. */
  function Ask(s: State, t: nat, turn: Turn, pc: Pc, limit: nat): (later: State)
    ensures later.rows == s.rows
  {
    if turn.requests >= limit then Finish(s, t).(overrun := true)
    else
      s.(turns := s.turns[t := turn.(pc := pc, requests := turn.requests + 1)],
         ledger := Bump(s.ledger, WatchOf(pc), turn.unit))
  }

  /** A claimed work unit opens a new entry in the watch's request ledger. */
  function OpenUnit(s: State, id: Id): (later: State)
    ensures later.rows == s.rows
  {
    s.(ledger := s.ledger[id := (if id in s.ledger then s.ledger[id] else []) + [0]])
  }

  function NewTurn(s: State, id: Id, sweep: nat, pc: Pc): Turn {
    Turn(sweep, pc, if id in s.ledger then |s.ledger[id]| else 0, 0)
  }

  // ---- Poller ------------------------------------------------------------------------------

  /** isScanSessionCompatible. */
  predicate ScanFits(w: Option<Row>, session: ScanSession) {
    && w.Some? && w.value.state == Active && w.value.evidenceVersion == 1
    && w.value.scanAfter.Some? && w.value.expiresAt.Some?
    && session.minRound == w.value.scanAfter.value + 1
    && (w.value.closing.Some? ==> session.maxRound <= w.value.closing.value)
  }

  function DropStaleScan(s: State, id: Id, w: Option<Row>): (later: State)
    ensures later.rows == s.rows
  {
    if id in s.scanOf && !(s.scanOf[id] in s.scans && ScanFits(w, s.scans[s.scanOf[id]]))
    then ForgetScan(s, id) else s
  }

  predicate Pollable(w: Row) {
    w.evidenceVersion == 1 && w.scanAfter.Some? && w.expiresAt.Some?
  }

  function PollClaim(w: Row): WorkClaim
    requires Pollable(w)
  {
    Polling(w.scanAfter.value, w.closing, w.failureCount)
  }

  function ClaimOutcomeOf(rows: Rows, id: Id, claim: WorkClaim, at: int): ClaimOutcome {
    if id in rows then OutcomeOf(rows[id], claim, at) else Inactive
  }

  ghost function StepBeginPoll(world: World, s: State, t: nat, sweep: nat, w: Row, at: int, now: int): State {
    if !Pollable(w) then s
    else
      var claim := PollClaim(w);
      var s1 := Store(world, s, Claim(w.id, claim, at));
      match ClaimOutcomeOf(s.rows, w.id, claim, at)
      case Exhausted => ForgetScan(s1, w.id)
      case Inactive => DropStaleScan(s1, w.id, RowOf(s1.rows, w.id))
      case Claimed =>
        var turn := NewTurn(s1, w.id, sweep, FailingPoll(w));
        var s2 := OpenUnit(s1, w.id);
        if w.closing.None? && w.expiresAt.value <= now
        then Ask(s2, t, turn, AwaitTip(w), MAX_POLLING_REQUESTS)
        else AfterCheckpoint(world, s2, t, turn, w)
  }

  /** The rest of serviceWatch up to the next await, once the closing round is known or not yet due. */
  ghost function AfterCheckpoint(world: World, s: State, t: nat, turn: Turn, w: Row): State
    requires Pollable(w)
  {
    if w.closing.Some? && w.closing.value <= w.scanAfter.value then
      Finish(Store(world, s, MarkExpired(w.id, w.scanAfter.value, w.closing.value)), t)
    else
      var s1 := DropStaleScan(s, w.id, Some(w));
      if w.id in s1.scanOf then RequestPage(world, s1, t, turn, w, s1.scanOf[w.id])
      else Ask(s1, t, turn, AwaitSweepTip(w), MAX_POLLING_REQUESTS)
  }

  /** getSweepPage: a cached page is taken now, a shared or fetched one arrives later. */
  function RequestPage(world: World, s: State, t: nat, turn: Turn, w: Row, session: nat): (later: State)
    ensures later.rows == s.rows
  {
    if session !in s.scans then Finish(s, t)
    else
      var scan := s.scans[session];
      var q := BuildQuery(w.spec, world.variant, scan.minRound, scan.maxRound);
      if q.Thrown? then Ask(s, t, turn, FailingPoll(w), MAX_POLLING_REQUESTS)
      else
        var key := Key(q.value, TokenSent(scan.next));
        var held := if key in s.cache then Some(s.cache[key]) else None;
        Ask(s, t, turn, AwaitPage(w, session, key, held), MAX_POLLING_REQUESTS)
  }

  ghost function StepBlock(world: World, s: State, t: nat, turn: Turn): State
    requires turn.pc.AwaitBlock?
  {
    var w, round := turn.pc.w, turn.pc.round;
    if !Pollable(w) then Finish(s, t)
    else if world.time(round) * 1000 < w.expiresAt.value then AfterCheckpoint(world, s, t, turn, w)
    else
      var s1 := Store(world, s, SetClosing(w.id, round));
      if w.id in s1.rows && Pollable(s1.rows[w.id]) then AfterCheckpoint(world, s1, t, turn, s1.rows[w.id])
      else Finish(s1, t)
  }

  /** The next window ends at the tip, the window size, or the closing round, whichever comes first. */
  function WindowEnd(world: World, w: Row, tip: nat): nat
    requires w.scanAfter.Some?
  {
    var reach := Min(w.scanAfter.value + world.window, tip);
    if w.closing.Some? then Min(reach, w.closing.value) else reach
  }

  function StepSweepTip(world: World, s: State, t: nat, turn: Turn, round: nat, session: nat): (later: State)
    requires turn.pc.AwaitSweepTip?
    ensures later.rows == s.rows
  {
    var w := turn.pc.w;
    if w.scanAfter.None? then Finish(s, t)
    else
      var maxRound := WindowEnd(world, w, round);
      if maxRound <= w.scanAfter.value then Finish(s, t)
      else
        var scan := ScanSession(w.id, w.scanAfter.value + 1, maxRound, None, {}, 0);
        var s1 := s.(scans := s.scans[session := scan], scanOf := s.scanOf[w.id := session]);
        RequestPage(world, s1, t, turn, w, session)
  }

  function FirstMatch(ts: seq<Transfer>, w: Row): Option<Transfer> {
    if ts == [] then None else if Matches(ts[0], w) then Some(ts[0]) else FirstMatch(ts[1..], w)
  }

  predicate Advances(rows: Rows, id: Id, expected: nat, round: nat) {
    && expected < round && id in rows
    && rows[id].state == Active && rows[id].scanAfter == Some(expected)
  }

  /** serviceWatch after the page has arrived. */
  ghost function Consume(world: World, s: State, t: nat, turn: Turn, page: Page): State
    requires turn.pc.AwaitPage?
  {
    var w, session := turn.pc.w, turn.pc.session;
    if session !in s.scans || w.scanAfter.None? then Finish(s, t)
    else
      var scan := s.scans[session];
      var found := FirstMatch(page.transactions, w);
      if page.currentRound < scan.maxRound then Suspend(s, t, turn, FailingPoll(w))
      else if found.Some? then
        var s1 := Store(world, s, MarkMatched(w.id, found.value.tx, found.value.round));
        Finish(ForgetScan(s1, w.id), t)
      else if page.next.Some? then
        if page.next == scan.next || page.next.value in scan.seen then Suspend(s, t, turn, FailingPoll(w))
        else
          var later := scan.(next := page.next, seen := scan.seen + {page.next.value}, consumed := scan.consumed + 1);
          Finish(PutScan(s, session, later), t)
      else
        Finish(CompleteWindow(world, ForgetScan(s, w.id), w, scan.maxRound), t)
  }

  /** Advance the durable cursor, and expire the watch when the cursor reaches its closing round. */
  ghost function CompleteWindow(world: World, s: State, w: Row, maxRound: nat): State
    requires w.scanAfter.Some?
  {
    var s1 := Store(world, s, AdvanceScan(w.id, w.scanAfter.value, maxRound));
    if !Advances(s.rows, w.id, w.scanAfter.value, maxRound) || w.id !in s1.rows then s1
    else
      var updated := s1.rows[w.id];
      if updated.closing.Some? && updated.scanAfter == updated.closing
      then Store(world, s1, MarkExpired(w.id, updated.scanAfter.value, updated.closing.value))
      else s1
  }

  ghost function StepPage(world: World, s: State, t: nat, turn: Turn, source: Source): State
    requires turn.pc.AwaitPage?
  {
    var w, key := turn.pc.w, turn.pc.key;
    match source
    case Held => if turn.pc.held.Some? then Consume(world, s, t, turn, turn.pc.held.value) else s
    case FromSweep =>
      if (turn.sweep, key) in s.shared then Consume(world, s, t, turn, s.shared[(turn.sweep, key)]) else s
    case Fetched(raw, kept) =>
      if !HonestPage(world, key, raw) then s
      else
        var page := ParsePage(raw, key.query.minRound, key.query.maxRound, w.spec, world.variant);
        if page.Thrown? then Suspend(s, t, turn, FailingPoll(w))
        else
          var cache := if kept && key.query.maxRound <= page.value.currentRound then s.cache[key := page.value] else s.cache;
          var s1 := s.(shared := s.shared[(turn.sweep, key) := page.value], cache := cache);
          Consume(world, s1, t, turn, page.value)
  }

  /** The sweep's catch block. */
  ghost function StepPollFails(world: World, s: State, t: nat, turn: Turn, f: Failure, retryAt: Option<int>): State
    requires !turn.pc.AwaitActivation?
  {
    var w := turn.pc.w;
    var s1 := s.(scanOf := Without(s.scanOf, w.id), cache := map[]);
    Finish(Store(world, s1, RecordFailure(w.id, f, retryAt)), t)
  }

  // ---- Reconciler --------------------------------------------------------------------------

  /** isSessionCompatible. */
  predicate ProofFits(w: Option<Row>, session: ProofSession) {
    w.Some? && Unsettled(w.value) && !w.value.terminal && w.value.expectedTx == Some(session.tx)
  }

  function DropStaleProof(s: State, id: Id, w: Option<Row>): (later: State)
    ensures later.rows == s.rows
  {
    if id in s.proofOf && !(s.proofOf[id] in s.proofs && ProofFits(w, s.proofs[s.proofOf[id]]))
    then ForgetProof(s, id) else s
  }

  /** hasImmutableTerms. */
  predicate HasTerms(w: Row) {
    w.evidenceVersion == 1 && w.expectedTx.Some? && w.expectedNetwork.Some? && w.expectedPayer.Some? && w.terms.Some?
  }

  /** The terms both activation paths compare; the reconciler also compares the network. */
  predicate MeetsTerms(w: Row, t: Transfer) {
    && w.terms.Some? && w.expectedPayer == Some(t.sender)
    && t.receiver == w.terms.value.receiver && t.asset == w.terms.value.asset
    && t.amount == w.terms.value.amount
    && w.terms.value.firstValid <= t.round <= w.terms.value.lastValid
  }

  ghost function StepBeginReconcile(world: World, s: State, t: nat, w: Row, at: int, nextAt: int): State {
    if !Truthy(w.expectedTx) then s
    else
      var claim := Reconciliation(w.expectedTx.value, w.attempts);
      var s1 := Store(world, s, Claim(w.id, claim, at));
      match ClaimOutcomeOf(s.rows, w.id, claim, at)
      case Exhausted => ForgetProof(s1, w.id)
      case Inactive => DropStaleProof(s1, w.id, RowOf(s1.rows, w.id))
      case Claimed => ClaimedReconcile(world, s1, t, w, nextAt)
  }

  /** The first segment of a reconciliation turn whose work unit has been charged. */
  ghost function ClaimedReconcile(world: World, s: State, t: nat, w: Row, nextAt: int): State {
    var turn, s1 := NewTurn(s, w.id, 0, FailingProof(w)), OpenUnit(s, w.id);
    if !HasTerms(w) then Store(world, s1, Defer(w.id, nextAt))
    else
      var s2 := DropStaleProof(s1, w.id, Some(w));
      if w.id in s2.proofOf then RequestAbsence(s2, t, turn, w, s2.proofOf[w.id])
      else Ask(s2, t, turn, AwaitLookup(w), MAX_RECONCILIATION_REQUESTS)
  }

  function RequestAbsence(s: State, t: nat, turn: Turn, w: Row, session: nat): (later: State)
    ensures later.rows == s.rows
  {
    if session !in s.proofs then Finish(s, t)
    else Ask(s, t, turn, AwaitAbsence(w, session, TokenSent(s.proofs[session].next)), MAX_RECONCILIATION_REQUESTS)
  }

  predicate Activates(rows: Rows, id: Id, ev: Evidence) {
    id in rows && EvidenceFits(rows[id], ev) && Unsettled(rows[id]) && !rows[id].terminal
  }

  predicate AlreadyActive(rows: Rows, id: Id, ev: Evidence) {
    && id in rows && EvidenceFits(rows[id], ev)
    && (rows[id].state == Active || rows[id].state == Matched)
    && rows[id].service.Some? && rows[id].service.value.tx == ev.tx
  }

  /** activateWatch throws when the row is missing, contradicts the evidence, or lost the race. */
  predicate ActivationThrows(rows: Rows, op: Op)
    requires op.Activate?
  {
    && !AlreadyActive(rows, op.id, op.ev)
    && !(Activates(rows, op.id, op.ev) && Admits(rows, op.id, UpdateRow(op, rows[op.id])))
  }

  ghost function ApplyConfirmed(world: World, s: State, t: nat, turn: Turn, found: Transfer, at: int): State
    requires !turn.pc.AwaitActivation?
  {
    var w := turn.pc.w;
    var s1 := ForgetProof(s, w.id);
    if w.expectedTx == Some(found.tx) && w.expectedNetwork == Some(world.network) && MeetsTerms(w, found) then
      var op := Activate(w.id, Evidence(found.tx, world.network, Some(found.sender)), Some(found.round), at);
      if ActivationThrows(s.rows, op) then Suspend(s1, t, turn, FailingProof(w))
      else Finish(Store(world, s1, op), t)
    else Finish(Store(world, s1, MarkInvalid(w.id)), t)
  }

  ghost function StepLookup(world: World, s: State, t: nat, turn: Turn, found: Option<Transfer>, at: int): State
    requires turn.pc.AwaitLookup?
  {
    var w := turn.pc.w;
    if w.expectedTx.None? || !HonestLookup(world, w.expectedTx.value, found) then s
    else if found.Some? then ApplyConfirmed(world, s, t, turn, found.value, at)
    else Ask(s, t, turn, AwaitRound(w), MAX_RECONCILIATION_REQUESTS)
  }

  ghost function StepRound(world: World, s: State, t: nat, turn: Turn, round: nat, session: nat, nextAt: int): State
    requires turn.pc.AwaitRound?
  {
    var w := turn.pc.w;
    if !HasTerms(w) then Finish(s, t)
    else if round <= w.terms.value.lastValid then Finish(Store(world, s, Defer(w.id, nextAt)), t)
    else
      var proof := ProofSession(w.id, w.expectedTx.value, None, {}, None, 0);
      var s1 := s.(proofs := s.proofs[session := proof], proofOf := s.proofOf[w.id := session]);
      RequestAbsence(s1, t, turn, w, session)
  }

  /** The lowest current round any page of the session has reported. */
  function Coverage(before: Option<nat>, round: nat): nat {
    if before.None? then round else Min(before.value, round)
  }

  ghost function StepAbsence(world: World, s: State, t: nat, turn: Turn, page: AbsencePage, at: int, nextAt: int): State
    requires turn.pc.AwaitAbsence?
  {
    var w, session, token := turn.pc.w, turn.pc.session, turn.pc.token;
    if session !in s.proofs || !HasTerms(w) || !HonestAbsence(world, w.expectedTx.value, token, page) then s
    else
      var before := s.proofs[session];
      var coverage := Coverage(before.coverage, page.currentRound);
      var proof := before.(coverage := Some(coverage));
      var s1 := PutProof(s, session, proof);
      if page.items != [] then ApplyConfirmed(world, s1, t, turn, page.items[0], at)
      else if page.next.Some? then
        if page.next == proof.next || page.next.value in proof.seen then Suspend(s1, t, turn, FailingProof(w))
        else
          var later := proof.(next := page.next, seen := proof.seen + {page.next.value}, consumed := proof.consumed + 1);
          Finish(Store(world, PutProof(s, session, later), Defer(w.id, nextAt)), t)
      else
        var s2 := ForgetProof(s1, w.id);
        if coverage <= w.terms.value.lastValid then Suspend(s2, t, turn, FailingProof(w))
        else Finish(Store(world, s2, MarkInvalid(w.id)), t)
  }

  ghost function StepProofFails(world: World, s: State, t: nat, turn: Turn, nextAt: int): State
    requires !turn.pc.AwaitActivation?
  {
    var w := turn.pc.w;
    Finish(Store(world, ForgetProof(s, w.id), Defer(w.id, nextAt)), t)
  }

  // ---- Settlement hooks --------------------------------------------------------------------

  /** recordSettlementCandidate returns normally. */
  predicate CandidateAccepted(rows: Rows, op: Op)
    requires op.RecordCandidate?
  {
    && op.id in rows && EvidenceFits(rows[op.id], op.ev)
    && (AlreadyActive(rows, op.id, op.ev)
        || (Unsettled(rows[op.id]) && Admits(rows, op.id, UpdateRow(op, rows[op.id]))))
  }

  ghost function StepSettled(world: World, s: State, t: nat, id: Id, ev: Evidence): State {
    var op := RecordCandidate(id, ev);
    if !CandidateAccepted(s.rows, op) then s
    else
      var s1 := Store(world, s, op);
      s1.(turns := s1.turns[t := Turn(0, AwaitActivation(id, ev), 0, 0)])
  }

  ghost function StepActivation(world: World, s: State, t: nat, turn: Turn, found: Option<Transfer>, at: int): State
    requires turn.pc.AwaitActivation?
  {
    var id, ev := turn.pc.watch, turn.pc.ev;
    if !HonestLookup(world, ev.tx, found) then s
    else if found.None? || id !in s.rows then Finish(s, t)
    else if found.value.tx == ev.tx && MeetsTerms(s.rows[id], found.value)
    then Finish(Store(world, s, Activate(id, ev, Some(found.value.round), at)), t)
    else Finish(Store(world, s, MarkInvalid(id)), t)
  }

  // ---- The machine -------------------------------------------------------------------------

  /** What extractSettlementIntent guarantees: named payment, and the validity window that binds it. */
  ghost predicate IntentSound(world: World, intent: Intent) {
    && intent.tx != "" && intent.network != ""
    && (forall t | world.byId(intent.tx) == Some(t) ::
          intent.terms.firstValid <= t.round <= intent.terms.lastValid)
  }

  /** The create handler: a new watch starts with an empty request ledger. */
  ghost function StepPrepare(world: World, s: State, id: Id, spec: Spec, intent: Option<Intent>, at: int): State {
    if intent.Some? && !IntentSound(world, intent.value) then s
    else
      var s1 := Store(world, s, Prepare(id, spec, intent, at));
      if id in s1.rows && id !in s.rows then s1.(ledger := s1.ledger[id := []]) else s1
  }

  /** The process restarts: rows survive, and the store's start-up repair runs. */
  ghost function StepCrash(world: World, s: State): State {
    Store(world, s, RepairBudgets).(listed := {}, scanOf := map[], proofOf := map[], turns := map[],
                                    cache := map[], shared := map[])
  }

  ghost function StepTurn(world: World, s: State, e: Event, t: nat, turn: Turn): State {
    match e
    case ActivationLookup(_, found, at) =>
      if turn.pc.AwaitActivation? then StepActivation(world, s, t, turn, found, at) else s
    case TipArrives(_, round) =>
      if turn.pc.AwaitTip? then Ask(s, t, turn, AwaitBlock(turn.pc.w, round), MAX_POLLING_REQUESTS) else s
    case BlockArrives(_) =>
      if turn.pc.AwaitBlock? then StepBlock(world, s, t, turn) else s
    case SweepTipArrives(_, round, session) =>
      if turn.pc.AwaitSweepTip? && session !in s.scans then StepSweepTip(world, s, t, turn, round, session) else s
    case PageArrives(_, source) =>
      if turn.pc.AwaitPage? then StepPage(world, s, t, turn, source) else s
    case PollFails(_, f, retryAt) =>
      if turn.pc.AwaitTip? || turn.pc.AwaitBlock? || turn.pc.AwaitSweepTip? || turn.pc.AwaitPage? || turn.pc.FailingPoll?
      then StepPollFails(world, s, t, turn, f, retryAt) else s
    case LookupArrives(_, found, at) =>
      if turn.pc.AwaitLookup? then StepLookup(world, s, t, turn, found, at) else s
    case RoundArrives(_, round, session, nextAt) =>
      if turn.pc.AwaitRound? && session !in s.proofs then StepRound(world, s, t, turn, round, session, nextAt) else s
    case AbsenceArrives(_, page, at, nextAt) =>
      if turn.pc.AwaitAbsence? then StepAbsence(world, s, t, turn, page, at, nextAt) else s
    case ProofFails(_, nextAt) =>
      if turn.pc.AwaitLookup? || turn.pc.AwaitRound? || turn.pc.AwaitAbsence? || turn.pc.FailingProof?
      then StepProofFails(world, s, t, turn, nextAt) else s
    case Interrupted(_) => Finish(s, t)
    case _ => s
  }

  /** Purchases and settlement outcomes, and the sweep's clearing of a failure, which here may come at any time. */
  ghost function StepClient(world: World, s: State, e: Event): State {
    match e
    case PrepareWatch(id, spec, intent, at) => StepPrepare(world, s, id, spec, intent, at)
    case SettlementFailed(id) => Store(world, s, MarkUnknown(id))
    case Settled(t, id, ev) => if t in s.turns then s else StepSettled(world, s, t, id, ev)
    case ClearPollingFailure(id) => Store(world, s, ClearFailure(id))
    case _ => s
  }

  /** A worker lists the table, or starts a turn on a row it listed earlier. */
  ghost function StepWorker(world: World, s: State, e: Event): State {
    match e
    case List => s.(listed := s.listed + s.rows.Values)
    case BeginPoll(t, sweep, w, at, now) =>
      if t in s.turns || w !in s.listed then s else StepBeginPoll(world, s, t, sweep, w, at, now)
    case BeginReconcile(t, w, at, nextAt) =>
      if t in s.turns || w !in s.listed then s else StepBeginReconcile(world, s, t, w, at, nextAt)
    case _ => s
  }

  /** Pruning, eviction and crashes. */
  ghost function StepUpkeep(world: World, s: State, e: Event): State {
    match e
    case PruneScan(id) => DropStaleScan(s, id, RowOf(s.rows, id))
    case PruneProof(id) => DropStaleProof(s, id, RowOf(s.rows, id))
    case Evict(key) => s.(cache := Without(s.cache, key))
    case Crash => StepCrash(world, s)
    case _ => s
  }

  predicate OfClient(e: Event) {
    e.PrepareWatch? || e.SettlementFailed? || e.Settled? || e.ClearPollingFailure?
  }

  predicate OfWorker(e: Event) {
    e.List? || e.BeginPoll? || e.BeginReconcile?
  }

  predicate OfUpkeep(e: Event) {
    e.PruneScan? || e.PruneProof? || e.Evict? || e.Crash?
  }

  ghost function Step(world: World, s: State, e: Event): State {
    if OfClient(e) then StepClient(world, s, e)
    else if OfWorker(e) then StepWorker(world, s, e)
    else if OfUpkeep(e) then StepUpkeep(world, s, e)
    else if e.turn in s.turns then StepTurn(world, s, e, e.turn, s.turns[e.turn])
    else s
  }

  ghost function Run(world: World, s: State, events: seq<Event>): State
    decreases |events|
  {
    if events == [] then s else Run(world, Step(world, s, events[0]), events[1..])
  }

  /** An empty database and no work. */
  function Start(): State {
    State(map[], {}, map[], map[], map[], map[], map[], map[], map[], map[], false)
  }
}
