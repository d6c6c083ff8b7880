/**
 The inductive invariant of the watch lifecycle: what rows, snapshots, sessions, suspended turns and
 cached pages carry as evidence about the chain, and why evidence survives the evolution of rows.
 */
module LifecycleSafety {
  import opened Common
  import opened Watches
  import opened WatchLaws
  import opened ScanQueries
  import opened ScanLaws
  import opened Chain
  import opened Lifecycle
  import opened RowSoundness

  // ---- The invariant -----------------------------------------------------------------------

  /** A row that was read at some point in this run. */
  ghost predicate Snapshot(rows: Rows, w: Row) {
    WellFormed(w) && w.id in rows && Evolves(w, rows[w.id])
  }

  ghost function SeenTokens(world: World, q: Query, k: nat): set<string> {
    set j | 1 <= j <= k :: world.token(q, j)
  }

  ghost function SeenFoundTokens(world: World, x: string, k: nat): set<string> {
    set j | 1 <= j <= k :: world.foundToken(x, j)
  }

  /** The pages a scan session has consumed, and only those, are behind its token; none held a match. */
  ghost predicate ScanSound(world: World, rows: Rows, scan: ScanSession) {
    && scan.watch in rows && rows[scan.watch].activationRound.Some? && scan.minRound <= scan.maxRound
    && var q := BuildQuery(rows[scan.watch].spec, world.variant, scan.minRound, scan.maxRound);
    q.Ok? ==>
      && scan.consumed < |world.pages(q.value)|
      && scan.next == PageToken(world, q.value, scan.consumed)
      && scan.seen == SeenTokens(world, q.value, scan.consumed)
      && forall j: nat | j < scan.consumed :: NoneMatch(Directs(world.pages(q.value)[j]), rows[scan.watch])
  }

  /** A parsed page that claims coverage is one page of the fixed partition. */
  ghost predicate PageSound(world: World, key: Key, page: Page) {
    key.query.maxRound <= page.currentRound ==>
      exists k: nat :: k < |world.pages(key.query)|
        && key.token == PageToken(world, key.query, k)
        && page.transactions == Directs(world.pages(key.query)[k])
        && page.next == NextPageToken(world, key.query, k)
  }

  /** Coverage seen so far still speaks about the watch's whole validity window. */
  predicate Reaches(coverage: Option<nat>, lastValid: nat) {
    coverage.None? || lastValid < coverage.value
  }

  ghost predicate ProofSound(world: World, rows: Rows, proof: ProofSession) {
    && proof.watch in rows && rows[proof.watch].expectedTx == Some(proof.tx) && rows[proof.watch].terms.Some?
    && (world.byId(proof.tx).Some? && Reaches(proof.coverage, rows[proof.watch].terms.value.lastValid) ==>
          && proof.consumed < |world.found(proof.tx)|
          && proof.next == FoundToken(world, proof.tx, proof.consumed)
          && proof.seen == SeenFoundTokens(world, proof.tx, proof.consumed)
          && forall j: nat | j < proof.consumed :: world.found(proof.tx)[j] == [])
  }

  ghost predicate AwaitPageSound(world: World, scans: map<nat, ScanSession>, w: Row, session: nat, key: Key, held: Option<Page>) {
    && session in scans && scans[session].watch == w.id
    && w.scanAfter.Some? && scans[session].minRound == w.scanAfter.value + 1
    && BuildQuery(w.spec, world.variant, scans[session].minRound, scans[session].maxRound) == Ok(key.query)
    && (exists j: nat :: j <= scans[session].consumed && key.token == PageToken(world, key.query, j))
    && (held.Some? ==> PageSound(world, key, held.value))
  }

  ghost predicate AwaitAbsenceSound(world: World, rows: Rows, proofs: map<nat, ProofSession>, w: Row, session: nat, token: Option<string>) {
    && session in proofs && proofs[session].watch == w.id && HasTerms(w)
    && proofs[session].tx == w.expectedTx.value
    && (world.byId(proofs[session].tx).Some? && Reaches(proofs[session].coverage, w.terms.value.lastValid) ==>
          exists j: nat :: j <= proofs[session].consumed && token == FoundToken(world, proofs[session].tx, j))
  }

  ghost predicate PcSound(world: World, rows: Rows, scans: map<nat, ScanSession>, proofs: map<nat, ProofSession>, pc: Pc) {
    if pc.AwaitActivation? then
      && pc.watch in rows
      && (rows[pc.watch].terms.Some? ==>
            rows[pc.watch].expectedTx == Some(pc.ev.tx) && rows[pc.watch].expectedNetwork == Some(pc.ev.network))
    else
      && Snapshot(rows, pc.w)
      && match pc
         case AwaitPage(w, session, key, held) => Pollable(w) && AwaitPageSound(world, scans, w, session, key, held)
         case AwaitAbsence(w, session, token) => AwaitAbsenceSound(world, rows, proofs, w, session, token)
         case AwaitTip(w) => Pollable(w)
         case AwaitBlock(w, _) => Pollable(w)
         case AwaitSweepTip(w) => Pollable(w)
         case AwaitLookup(w) => HasTerms(w)
         case AwaitRound(w) => HasTerms(w)
         case _ => true
  }

  ghost predicate ListedSound(rows: Rows, listed: set<Row>) {
    forall w <- listed :: Snapshot(rows, w)
  }

  ghost predicate ScansSound(world: World, rows: Rows, scans: map<nat, ScanSession>) {
    forall i | i in scans :: ScanSound(world, rows, scans[i])
  }

  predicate ScansOwned(scans: map<nat, ScanSession>, scanOf: map<Id, nat>) {
    forall id | id in scanOf :: scanOf[id] in scans && scans[scanOf[id]].watch == id
  }

  ghost predicate ProofsSound(world: World, rows: Rows, proofs: map<nat, ProofSession>) {
    forall i | i in proofs :: ProofSound(world, rows, proofs[i])
  }

  predicate ProofsOwned(proofs: map<nat, ProofSession>, proofOf: map<Id, nat>) {
    forall id | id in proofOf :: proofOf[id] in proofs && proofs[proofOf[id]].watch == id
  }

  ghost predicate TurnsSound(world: World, rows: Rows, scans: map<nat, ScanSession>, proofs: map<nat, ProofSession>,
                             turns: map<nat, Turn>) {
    forall t | t in turns :: PcSound(world, rows, scans, proofs, turns[t].pc)
  }

  ghost predicate PagesSound(world: World, cache: map<Key, Page>, shared: map<(nat, Key), Page>) {
    && (forall key | key in cache :: PageSound(world, key, cache[key]))
    && (forall k | k in shared :: PageSound(world, k.1, shared[k]))
  }

  ghost predicate Inv(world: World, s: State) {
    && TableSound(world, s.rows)
    && ListedSound(s.rows, s.listed)
    && ScansSound(world, s.rows, s.scans)
    && ScansOwned(s.scans, s.scanOf)
    && ProofsSound(world, s.rows, s.proofs)
    && ProofsOwned(s.proofs, s.proofOf)
    && TurnsSound(world, s.rows, s.scans, s.proofs, s.turns)
    && PagesSound(world, s.cache, s.shared)
  }

  // ---- Frame: evidence survives the evolution of rows --------------------------------------

  lemma SnapshotKept(rows: Rows, later: Rows, w: Row)
    requires Snapshot(rows, w) && TableEvolves(rows, later)
    ensures Snapshot(later, w)
  {
    EvolvesTransitive(w, rows[w.id], later[w.id]);
  }

  lemma ScanKept(world: World, rows: Rows, later: Rows, scan: ScanSession)
    requires ScanSound(world, rows, scan) && TableEvolves(rows, later)
    ensures ScanSound(world, later, scan)
  {
    assert forall t :: Matches(t, rows[scan.watch]) == Matches(t, later[scan.watch]);
  }

  lemma ProofKept(world: World, rows: Rows, later: Rows, proof: ProofSession)
    requires ProofSound(world, rows, proof) && TableEvolves(rows, later)
    ensures ProofSound(world, later, proof)
  {
  }

  lemma PcKept(world: World, rows: Rows, later: Rows, scans: map<nat, ScanSession>, proofs: map<nat, ProofSession>, pc: Pc)
    requires PcSound(world, rows, scans, proofs, pc) && TableEvolves(rows, later)
    ensures PcSound(world, later, scans, proofs, pc)
  {
    if !pc.AwaitActivation? { SnapshotKept(rows, later, pc.w); }
  }

  lemma TurnsKept(world: World, rows: Rows, later: Rows, scans: map<nat, ScanSession>, proofs: map<nat, ProofSession>,
                  turns: map<nat, Turn>)
    requires TurnsSound(world, rows, scans, proofs, turns) && TableEvolves(rows, later)
    ensures TurnsSound(world, later, scans, proofs, turns)
  {
    forall t | t in turns ensures PcSound(world, later, scans, proofs, turns[t].pc) {
      PcKept(world, rows, later, scans, proofs, turns[t].pc);
    }
  }

  /** A statement issued with its evidence keeps the table sound and everything else valid. */
  lemma StoreKeeps(world: World, s: State, op: Op)
    requires Inv(world, s)
    requires !op.Prepare? && !op.RepairBudgets? && op.id in s.rows ==> Justified(world, op, s.rows[op.id])
    requires op.Prepare? && op.intent.Some? ==> IntentSound(world, op.intent.value)
    ensures Inv(world, Store(world, s, op))
    ensures TableEvolves(s.rows, Apply(world.cfg, s.rows, op))
  {
    var later := Apply(world.cfg, s.rows, op);
    ApplyKeeps(world.cfg, s.rows, op);
    TableStaysSound(world, s.rows, op);
    forall w <- s.listed ensures Snapshot(later, w) { SnapshotKept(s.rows, later, w); }
    forall i | i in s.scans ensures ScanSound(world, later, s.scans[i]) { ScanKept(world, s.rows, later, s.scans[i]); }
    forall i | i in s.proofs ensures ProofSound(world, later, s.proofs[i]) { ProofKept(world, s.rows, later, s.proofs[i]); }
    TurnsKept(world, s.rows, later, s.scans, s.proofs, s.turns);
  }

  lemma TableStaysSound(world: World, rows: Rows, op: Op)
    requires TableSound(world, rows)
    requires !op.Prepare? && !op.RepairBudgets? && op.id in rows ==> Justified(world, op, rows[op.id])
    requires op.Prepare? && op.intent.Some? ==> IntentSound(world, op.intent.value)
    ensures TableSound(world, Apply(world.cfg, rows, op))
  {
    ApplyKeeps(world.cfg, rows, op);
    if op.Prepare? {
      PreparedSound(world, rows, op);
    } else if op.RepairBudgets? {
      forall id | id in rows ensures RowSound(world, RepairRow(world.cfg, rows[id])) {
        SameContract(world, rows[id], RepairRow(world.cfg, rows[id]));
      }
    } else if op.id in rows {
      UpdateSound(world, op, rows[op.id]);
    }
  }

  lemma PreparedSound(world: World, rows: Rows, op: Op)
    requires TableSound(world, rows) && op.Prepare?
    requires op.intent.Some? ==> IntentSound(world, op.intent.value)
    ensures var later := Apply(world.cfg, rows, op); forall id | id in later :: RowSound(world, later[id])
  {
    var p := PrepareOutcome(world.cfg, rows, op.id, op.spec, op.intent, op.at);
    if p.Created? {
      CreatedMeans(world.cfg, rows, op);
      NewRowSound(world, world.cfg, op.id, op.spec, op.intent, op.at);
    }
  }

  lemma NewRowSound(world: World, cfg: Config, id: Id, spec: Spec, intent: Option<Intent>, at: int)
    requires intent.Some? ==> IntentSound(world, intent.value)
    ensures RowSound(world, NewRow(cfg, id, spec, intent, at))
  {
  }
}
