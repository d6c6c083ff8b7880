/**
 What every statement, and every run of statements, keeps: immutable identity, monotone progress,
 frozen closed rows, unique ownership, capacity, idempotent purchase and the work budget.
 */
module WatchLaws {
  import opened Common
  import opened Watches

  // ---- One row -----------------------------------------------------------------------------

  ghost predicate WellFormed(r: Row) {
    && (r.state == SettlementPending ==> !r.terminal)
    && (Unsettled(r) ==> r.service.None? && r.scanAfter.None? && r.closing.None?)
    && (r.state.Active? || r.state.Matched? || r.state.Expired? ==> r.service.Some? && !r.terminal)
    && (r.activationRound.Some? <==> r.scanAfter.Some?)
    && (r.scanAfter.Some? ==> r.activationRound.value <= r.scanAfter.value)
    && (r.matched.Some? <==> r.state == Matched)
    && (r.closing.Some? ==> r.evidenceVersion == 1)
    && (r.state == Expired ==> r.closing.Some? && r.scanAfter.Some? && r.closing.value <= r.scanAfter.value)
    && (r.state == Indeterminate <==> r.reason.Some?)
    && r.used <= r.budget.GetOr(0)
  }

  predicate Kept<T(==)>(before: Option<T>, after: Option<T>) {
    before.Some? ==> after == before
  }

  /** `later` is a possible future of `r`: identity fixed, facts write-once, progress monotone. */
  ghost predicate Evolves(r: Row, later: Row) {
    && later.id == r.id && later.spec == r.spec && later.terms == r.terms
    && later.createdAt == r.createdAt && later.expiresAt == r.expiresAt
    && later.evidenceVersion == r.evidenceVersion
    && Kept(r.expectedTx, later.expectedTx)
    && Kept(r.expectedNetwork, later.expectedNetwork)
    && Kept(r.expectedPayer, later.expectedPayer)
    && Kept(r.service, later.service)
    && Kept(r.activationRound, later.activationRound)
    && Kept(r.closing, later.closing)
    && Kept(r.budget, later.budget)
    && (r.scanAfter.Some? ==> later.scanAfter.Some? && r.scanAfter.value <= later.scanAfter.value)
    && r.used <= later.used
    && (!Unsettled(r) ==> !Unsettled(later))
    && (!Open(r) ==> later == r)
  }

  lemma EvolvesTransitive(a: Row, b: Row, c: Row)
    requires Evolves(a, b) && Evolves(b, c)
    ensures Evolves(a, c)
  {
  }

  lemma SettlingEvolves(op: Op, r: Row)
    requires WellFormed(r) && (op.RecordCandidate? || op.Activate? || op.MarkUnknown? || op.MarkInvalid? || op.Defer?)
    ensures WellFormed(UpdateRow(op, r)) && Evolves(r, UpdateRow(op, r))
  {
    hide EvidenceFits;
    match op
    case RecordCandidate(_, _) =>
    case Activate(_, _, _, _) =>
    case _ =>
  }

  lemma FailingEvolves(op: Op, r: Row)
    requires WellFormed(r) && (op.Claim? || op.RecordFailure? || op.ClearFailure?)
    ensures WellFormed(UpdateRow(op, r)) && Evolves(r, UpdateRow(op, r))
  {
    hide ValidFailure, Due;
    match op
    case Claim(_, plan, _) => if plan.Polling? {} else {}
    case RecordFailure(_, _, _) =>
    case _ =>
  }

  lemma ScanningEvolves(op: Op, r: Row)
    requires WellFormed(r) && (op.MarkMatched? || op.AdvanceScan? || op.SetClosing? || op.MarkExpired?)
    ensures WellFormed(UpdateRow(op, r)) && Evolves(r, UpdateRow(op, r))
  {
    match op
    case MarkMatched(_, _, _) =>
    case AdvanceScan(_, _, _) =>
    case _ =>
  }

  lemma UpdateEvolves(op: Op, r: Row)
    requires WellFormed(r)
    ensures WellFormed(UpdateRow(op, r)) && Evolves(r, UpdateRow(op, r))
  {
    if op.RecordCandidate? || op.Activate? || op.MarkUnknown? || op.MarkInvalid? || op.Defer? {
      SettlingEvolves(op, r);
    } else if op.Claim? || op.RecordFailure? || op.ClearFailure? {
      FailingEvolves(op, r);
    } else if op.MarkMatched? || op.AdvanceScan? || op.SetClosing? || op.MarkExpired? {
      ScanningEvolves(op, r);
    } else {
      assert UpdateRow(op, r) == r;
    }
  }

  // ---- The table ---------------------------------------------------------------------------

  ghost predicate WellFormedTable(rows: Rows) {
    && (forall id | id in rows :: rows[id].id == id && WellFormed(rows[id]))
    && Unique(rows)
  }

  /** Every row is still there, and is a future of what it was. */
  ghost predicate TableEvolves(rows: Rows, later: Rows) {
    forall id | id in rows :: id in later && Evolves(rows[id], later[id])
  }

  lemma PutKeeps(rows: Rows, id: Id, r: Row)
    requires WellFormedTable(rows)
    requires Admits(rows, id, r) && WellFormed(r) && r.id == id
    ensures WellFormedTable(rows[id := r])
  {
    var later := rows[id := r];
    forall i, j | i in later && j in later && i != j ensures !Clash(later[i], later[j]) {
      if i == id { assert !Clash(r, rows[j]); }
      else if j == id { assert !Clash(r, rows[i]); }
      else { assert !Clash(rows[i], rows[j]); }
    }
  }

  lemma RepairEvolves(cfg: Config, r: Row)
    requires WellFormed(r)
    ensures WellFormed(RepairRow(cfg, r)) && Evolves(r, RepairRow(cfg, r))
    ensures RepairRow(cfg, r).id == r.id
  {
  }

  lemma RepairKeeps(cfg: Config, rows: Rows)
    requires WellFormedTable(rows)
    ensures WellFormedTable(Repaired(cfg, rows))
    ensures TableEvolves(rows, Repaired(cfg, rows))
  {
    hide WellFormed, Evolves, Clash, RepairRow;
    var later := Repaired(cfg, rows);
    forall id | id in rows ensures later[id].id == id && WellFormed(later[id]) && Evolves(rows[id], later[id]) {
      RepairEvolves(cfg, rows[id]);
    }
    forall i, j | i in later && j in later && i != j ensures !Clash(later[i], later[j]) {
      RepairedClash(cfg, rows[i], rows[j]);
      assert !Clash(rows[i], rows[j]);
    }
  }

  lemma RepairedClash(cfg: Config, r: Row, s: Row)
    ensures Clash(RepairRow(cfg, r), RepairRow(cfg, s)) == Clash(r, s)
  {
  }

  lemma PrepareKeeps(cfg: Config, rows: Rows, id: Id, spec: Spec, intent: Option<Intent>, at: int)
    requires WellFormedTable(rows)
    ensures WellFormedTable(ApplyPrepare(rows, PrepareOutcome(cfg, rows, id, spec, intent, at)))
    ensures TableEvolves(rows, ApplyPrepare(rows, PrepareOutcome(cfg, rows, id, spec, intent, at)))
  {
    var p := PrepareOutcome(cfg, rows, id, spec, intent, at);
    if p.Created? {
      PutKeeps(rows, id, p.row);
    }
  }

  lemma UpdateKeeps(rows: Rows, id: Id, r: Row)
    requires WellFormedTable(rows) && id in rows
    requires WellFormed(r) && Evolves(rows[id], r)
    ensures WellFormedTable(Put(rows, id, r)) && TableEvolves(rows, Put(rows, id, r))
  {
    if Admits(rows, id, r) { PutKeeps(rows, id, r); }
  }

  lemma ApplyKeeps(cfg: Config, rows: Rows, op: Op)
    requires WellFormedTable(rows)
    ensures WellFormedTable(Apply(cfg, rows, op))
    ensures TableEvolves(rows, Apply(cfg, rows, op))
  {
    if op.Prepare? {
      PrepareKeeps(cfg, rows, op.id, op.spec, op.intent, op.at);
    } else if op.RepairBudgets? {
      RepairKeeps(cfg, rows);
    } else if op.id in rows {
      UpdateEvolves(op, rows[op.id]);
      UpdateKeeps(rows, op.id, UpdateRow(op, rows[op.id]));
    }
  }

  /** Closed rows never change and no fact is ever rewritten, over any run of statements. */
  lemma {:induction false} RunKeeps(cfg: Config, rows: Rows, ops: seq<Op>)
    requires WellFormedTable(rows)
    ensures WellFormedTable(Run(cfg, rows, ops))
    ensures TableEvolves(rows, Run(cfg, rows, ops))
    decreases |ops|
  {
    if ops != [] {
      var next := Apply(cfg, rows, ops[0]);
      ApplyKeeps(cfg, rows, ops[0]);
      RunKeeps(cfg, next, ops[1..]);
      forall id | id in rows ensures Evolves(rows[id], Run(cfg, rows, ops)[id]) {
        EvolvesTransitive(rows[id], next[id], Run(cfg, rows, ops)[id]);
      }
    }
  }

  // ---- Capacity ----------------------------------------------------------------------------

  lemma OpenOnlyShrinks(cfg: Config, rows: Rows, op: Op)
    requires WellFormedTable(rows) && !op.Prepare?
    ensures OpenIds(Apply(cfg, rows, op)) <= OpenIds(rows)
  {
    ApplyKeeps(cfg, rows, op);
    assert Apply(cfg, rows, op).Keys == rows.Keys;
  }

  lemma SmallerSet<T>(a: set<T>, b: set<T>)
    requires a <= b
    ensures |a| <= |b|
  {
    if a != {} {
      var x :| x in a;
      SmallerSet(a - {x}, b - {x});
    }
  }

  function Max(a: int, b: int): int { if a <= b then b else a }

  lemma CreatedKeyed(cfg: Config, op: Op)
    requires op.Prepare?
    ensures NewRow(cfg, op.id, op.spec, op.intent, op.at).id == op.id
  {
  }

  lemma PreparedOpens(cfg: Config, rows: Rows, op: Op)
    requires WellFormedTable(rows) && op.Prepare?
    ensures |OpenIds(Apply(cfg, rows, op))| <= Max(|OpenIds(rows)|, cfg.maxOpen)
  {
    hide WellFormedTable, PrepareOutcome, Open, NewRow;
    var p := PrepareOutcome(cfg, rows, op.id, op.spec, op.intent, op.at);
    if p.Created? {
      CreatedMeans(cfg, rows, op);
      CreatedKeyed(cfg, op);
      assert OpenIds(ApplyPrepare(rows, p)) <= OpenIds(rows) + {op.id};
      SmallerSet(OpenIds(ApplyPrepare(rows, p)), OpenIds(rows) + {op.id});
    }
  }

  lemma OpenAfter(cfg: Config, rows: Rows, op: Op)
    requires WellFormedTable(rows)
    ensures |OpenIds(Apply(cfg, rows, op))| <= Max(|OpenIds(rows)|, cfg.maxOpen)
  {
    if op.Prepare? {
      PreparedOpens(cfg, rows, op);
    } else {
      OpenOnlyShrinks(cfg, rows, op);
      SmallerSet(OpenIds(Apply(cfg, rows, op)), OpenIds(rows));
    }
  }

  /** No run opens more obligations than it inherited or the configuration allows. */
  lemma {:induction false} OpenObligationsBounded(cfg: Config, rows: Rows, ops: seq<Op>)
    requires WellFormedTable(rows)
    ensures |OpenIds(Run(cfg, rows, ops))| <= Max(|OpenIds(rows)|, cfg.maxOpen)
    decreases |ops|
  {
    if ops != [] {
      var next := Apply(cfg, rows, ops[0]);
      ApplyKeeps(cfg, rows, ops[0]);
      OpenAfter(cfg, rows, ops[0]);
      OpenObligationsBounded(cfg, next, ops[1..]);
    }
  }

  /** The settlement evidence hands an open, so far payer-less row to this payer. */
  ghost predicate Adopts(rows: Rows, op: Op, payer: string) {
    && (op.RecordCandidate? || op.Activate?) && op.id in rows
    && PayerOf(rows[op.id]).None? && op.ev.payer == Some(payer)
    && Unsettled(rows[op.id]) && !rows[op.id].terminal && EvidenceFits(rows[op.id], op.ev)
    && Admits(rows, op.id, UpdateRow(op, rows[op.id]))
  }

  lemma PayerAfterUpdate(op: Op, r: Row, payer: string)
    requires WellFormed(r) && !op.Prepare? && !op.RepairBudgets? && Open(UpdateRow(op, r))
    requires PayerOf(UpdateRow(op, r)) == Some(payer) && PayerOf(r) != Some(payer)
    ensures op.RecordCandidate? || op.Activate?
    ensures PayerOf(r).None? && op.ev.payer == Some(payer)
    ensures Unsettled(r) && !r.terminal && EvidenceFits(r, op.ev)
  {
  }

  /** What one statement other than a purchase makes of one row. */
  lemma RowNext(cfg: Config, rows: Rows, op: Op, id: Id)
    requires !op.Prepare? && id in rows
    ensures var next := Apply(cfg, rows, op);
            && id in next
            && (|| next[id] == rows[id] || next[id] == RepairRow(cfg, rows[id])
                || (!op.RepairBudgets? && op.id == id && next[id] == UpdateRow(op, rows[id]) && Admits(rows, id, next[id])))
  {
    hide UpdateRow, RepairRow, Admits;
  }

  lemma PayerNext(cfg: Config, rows: Rows, op: Op, id: Id, payer: string)
    requires WellFormedTable(rows) && !op.Prepare? && id in rows
    requires var next := Apply(cfg, rows, op);
             id in next && Open(next[id]) && PayerOf(next[id]) == Some(payer) && Evolves(rows[id], next[id])
    ensures Open(rows[id]) && (PayerOf(rows[id]) == Some(payer) || (Adopts(rows, op, payer) && id == op.id))
  {
    RowNext(cfg, rows, op, id);
    hide Apply, UpdateRow, Admits, EvidenceFits;
    if PayerOf(rows[id]) != Some(payer) {
      assert !op.RepairBudgets?;
      PayerAfterUpdate(op, rows[id], payer);
    }
  }

  lemma PayerSetAfter(cfg: Config, rows: Rows, op: Op, payer: string)
    requires WellFormedTable(rows) && !op.Prepare?
    ensures OpenIdsOf(Apply(cfg, rows, op), payer) <=
            OpenIdsOf(rows, payer) + (if Adopts(rows, op, payer) then {op.id} else {})
  {
    hide Apply, WellFormedTable, UpdateRow, Admits, EvidenceFits, Open, PayerOf, Evolves;
    var next := Apply(cfg, rows, op);
    ApplyKeeps(cfg, rows, op);
    forall id | id in OpenIdsOf(next, payer)
      ensures id in OpenIdsOf(rows, payer) || (Adopts(rows, op, payer) && id == op.id)
    {
      SameKeys(cfg, rows, op);
      PayerNext(cfg, rows, op, id, payer);
    }
  }

  lemma SameKeys(cfg: Config, rows: Rows, op: Op)
    requires !op.Prepare?
    ensures Apply(cfg, rows, op).Keys == rows.Keys
  {
    hide UpdateRow, RepairRow, Admits;
  }

  lemma CreatedMeans(cfg: Config, rows: Rows, op: Op)
    requires op.Prepare? && PrepareOutcome(cfg, rows, op.id, op.spec, op.intent, op.at).Created?
    ensures PrepareOutcome(cfg, rows, op.id, op.spec, op.intent, op.at).row
         == NewRow(cfg, op.id, op.spec, op.intent, op.at)
    ensures op.id !in rows && |OpenIds(rows)| < cfg.maxOpen
    ensures Truthy(PayerOfIntent(op.intent))
        ==> |OpenIdsOf(rows, PayerOfIntent(op.intent).value)| < cfg.maxOpenPerPayer
  {
  }

  lemma NewRowForPayer(rows: Rows, r: Row, payer: string)
    requires r.id !in rows && Open(r) && r.service.None?
    ensures |OpenIdsOf(rows[r.id := r], payer)|
         == |OpenIdsOf(rows, payer)| + if r.expectedPayer == Some(payer) then 1 else 0
  {
    assert OpenIdsOf(rows[r.id := r], payer) ==
      OpenIdsOf(rows, payer) + if r.expectedPayer == Some(payer) then {r.id} else {};
  }

  lemma PreparedForPayer(cfg: Config, rows: Rows, op: Op, payer: string)
    requires WellFormedTable(rows) && op.Prepare? && payer != ""
    requires |OpenIdsOf(rows, payer)| <= cfg.maxOpenPerPayer
    ensures |OpenIdsOf(Apply(cfg, rows, op), payer)| <= cfg.maxOpenPerPayer
  {
    var p := PrepareOutcome(cfg, rows, op.id, op.spec, op.intent, op.at);
    if p.Created? {
      CreatedMeans(cfg, rows, op);
      NewRowForPayer(rows, p.row, payer);
      if p.row.expectedPayer == Some(payer) {
        assert |OpenIdsOf(rows, payer)| < cfg.maxOpenPerPayer;
      }
    }
  }

  lemma AdoptedForPayer(cfg: Config, rows: Rows, op: Op, payer: string)
    requires WellFormedTable(rows) && Adopts(rows, op, payer)
    ensures |OpenIdsOf(Apply(cfg, rows, op), payer)| == |OpenIdsOf(rows, payer)| + 1
  {
    var r := UpdateRow(op, rows[op.id]);
    assert Open(r) && PayerOf(r) == Some(payer);
    assert OpenIdsOf(rows[op.id := r], payer) == OpenIdsOf(rows, payer) + {op.id};
  }

  /**
   The per-payer limit survives a statement exactly when the statement does not hand one more
   payer-less row to a payer who is already at the limit.
   */
  lemma PayerLimitKeptExactly(cfg: Config, rows: Rows, op: Op, payer: string)
    requires WellFormedTable(rows) && payer != "" && |OpenIdsOf(rows, payer)| <= cfg.maxOpenPerPayer
    ensures |OpenIdsOf(Apply(cfg, rows, op), payer)| <= cfg.maxOpenPerPayer
       <==> !(Adopts(rows, op, payer) && |OpenIdsOf(rows, payer)| == cfg.maxOpenPerPayer)
  {
    if op.Prepare? {
      PreparedForPayer(cfg, rows, op, payer);
    } else if Adopts(rows, op, payer) {
      AdoptedForPayer(cfg, rows, op, payer);
    } else {
      PayerSetAfter(cfg, rows, op, payer);
      SmallerSet(OpenIdsOf(Apply(cfg, rows, op), payer), OpenIdsOf(rows, payer));
    }
  }

  function Wanted(key: string): Spec {
    Spec(key, "PAYER", "SHOP", 31566704, "1", None)
  }

  /** A purchase that names no payer, one that names a payer, and then the first payment's evidence. */
  function AdoptingRun(): seq<Op> {
    [Prepare("a", Wanted("one"), None, 0),
     Prepare("b", Wanted("two"), Some(Intent("TX-B", "net", Some("P"), Terms("PAY-TO", 31566704, "1", 1, 1000))), 0),
     RecordCandidate("a", Evidence("TX-A", "net", Some("P")))]
  }

  function OnePerPayer(): Config { Config(2, 1, 1, 1) }

  lemma FirstPurchase()
    ensures var cfg, ops := OnePerPayer(), AdoptingRun();
            Apply(cfg, map[], ops[0]) == map["a" := NewRow(cfg, "a", Wanted("one"), None, 0)]
  {
    assert OpenIds(map[]) == {};
  }

  lemma SecondPurchase()
    ensures var cfg, ops := OnePerPayer(), AdoptingRun();
            var a, b := NewRow(cfg, "a", Wanted("one"), None, 0), NewRow(cfg, "b", Wanted("two"), ops[1].intent, 0);
            Apply(cfg, map["a" := a], ops[1]) == map["a" := a, "b" := b]
  {
    var cfg, ops := OnePerPayer(), AdoptingRun();
    var a := NewRow(cfg, "a", Wanted("one"), None, 0);
    var rows := map["a" := a];
    assert OpenIds(rows) == {"a"} && OpenIdsOf(rows, "P") == {};
    assert FindIdempotencyRow(rows, "two", Some("P")).None?;
  }

  lemma Adoption()
    ensures var cfg, ops := OnePerPayer(), AdoptingRun();
            var a, b := NewRow(cfg, "a", Wanted("one"), None, 0), NewRow(cfg, "b", Wanted("two"), ops[1].intent, 0);
            OpenIdsOf(Apply(cfg, map["a" := a, "b" := b], ops[2]), "P") == {"a", "b"}
  {
    var cfg, ops := OnePerPayer(), AdoptingRun();
    var a, b := NewRow(cfg, "a", Wanted("one"), None, 0), NewRow(cfg, "b", Wanted("two"), ops[1].intent, 0);
    var two := map["a" := a, "b" := b];
    assert Apply(cfg, two, ops[2]) == two["a" := UpdateRow(ops[2], a)];
  }

  lemma RunOfThree(cfg: Config, rows: Rows, x: Op, y: Op, z: Op)
    ensures Run(cfg, rows, [x, y, z]) == Apply(cfg, Apply(cfg, Apply(cfg, rows, x), y), z)
  {
    hide Apply;
    var one := Apply(cfg, rows, x);
    var two := Apply(cfg, one, y);
    assert [x, y, z][1..] == [y, z] && [y, z][1..] == [z] && [z][1..] == [];
    assert Run(cfg, one, [y, z]) == Run(cfg, two, [z]);
    assert Run(cfg, two, [z]) == Run(cfg, Apply(cfg, two, z), []);
  }

  /** The failing input: from an empty table, a payer ends with two open watches where one is allowed. */
  lemma PayerLimitFails()
    ensures var rows := Run(OnePerPayer(), map[], AdoptingRun());
            OpenIdsOf(rows, "P") == {"a", "b"} && |OpenIdsOf(rows, "P")| == 2 > OnePerPayer().maxOpenPerPayer
  {
    FirstPurchase();
    SecondPurchase();
    Adoption();
    hide Apply, Run, OpenIdsOf, NewRow;
    var ops := AdoptingRun();
    RunOfThree(OnePerPayer(), map[], ops[0], ops[1], ops[2]);
    assert ops == [ops[0], ops[1], ops[2]];
  }

  ghost predicate PayersKnown(rows: Rows) {
    forall id | id in rows :: Truthy(rows[id].expectedPayer)
  }

  lemma PayersStayKnown(cfg: Config, rows: Rows, op: Op)
    requires WellFormedTable(rows) && PayersKnown(rows)
    requires op.Prepare? ==> Truthy(PayerOfIntent(op.intent))
    ensures PayersKnown(Apply(cfg, rows, op))
    ensures forall payer :: !Adopts(rows, op, payer)
  {
    hide Apply, WellFormedTable, UpdateRow, Admits, EvidenceFits, PrepareOutcome;
    ApplyKeeps(cfg, rows, op);
    var next := Apply(cfg, rows, op);
    forall id | id in next ensures Truthy(next[id].expectedPayer) {
      if id in rows {
        assert Evolves(rows[id], next[id]);
      } else {
        SoldToPayer(cfg, rows, op, id);
      }
    }
  }

  lemma SoldToPayer(cfg: Config, rows: Rows, op: Op, id: Id)
    requires id !in rows && id in Apply(cfg, rows, op)
    ensures op.Prepare? && Apply(cfg, rows, op)[id].expectedPayer == PayerOfIntent(op.intent)
  {
    hide UpdateRow, Admits, FindIdempotencyRow;
  }

  /** When every purchase names its payer, no run ever exceeds any payer's limit. */
  lemma {:induction false} PayerLimitHolds(cfg: Config, rows: Rows, ops: seq<Op>, payer: string)
    requires WellFormedTable(rows) && PayersKnown(rows) && payer != ""
    requires |OpenIdsOf(rows, payer)| <= cfg.maxOpenPerPayer
    requires forall op <- ops :: op.Prepare? ==> Truthy(PayerOfIntent(op.intent))
    ensures |OpenIdsOf(Run(cfg, rows, ops), payer)| <= cfg.maxOpenPerPayer
    decreases |ops|
  {
    if ops != [] {
      var next := Apply(cfg, rows, ops[0]);
      assert ops[0] in ops;
      ApplyKeeps(cfg, rows, ops[0]);
      PayerLimitKeptExactly(cfg, rows, ops[0], payer);
      PayersStayKnown(cfg, rows, ops[0]);
      PayerLimitHolds(cfg, next, ops[1..], payer);
    }
  }

  // ---- Idempotent purchase -----------------------------------------------------------------

  lemma SameRowFound(rows: Rows, id: Id, which: Row -> bool)
    requires id in rows && which(rows[id])
    requires forall other | other in rows && other != id :: !which(rows[other])
    ensures FindRow(rows, which) == Some(rows[id])
  {
  }

  lemma PayerRowUnique(rows: Rows, id: Id, payer: string, key: string)
    requires WellFormedTable(rows) && id in rows && PayerRow(rows[id], payer, key)
    ensures FindRow(rows, r => PayerRow(r, payer, key)) == Some(rows[id])
  {
    forall other | other in rows && other != id ensures !PayerRow(rows[other], payer, key) {
      assert !Clash(rows[id], rows[other]);
    }
    SameRowFound(rows, id, r => PayerRow(r, payer, key));
  }

  lemma OwnRowFound(rows: Rows, id: Id, key: string, payer: string)
    requires WellFormedTable(rows) && id in rows && payer != "" && PayerRow(rows[id], payer, key)
    ensures FindIdempotencyRow(rows, key, Some(payer)) == Some(rows[id])
  {
    PayerRowUnique(rows, id, payer, key);
  }

  /**
   Once a payer owns a watch under a key, every later purchase attempt by that payer under that key
   creates nothing and changes nothing: the same specification gets that watch back as it now is,
   another specification is refused.
   */
  lemma PurchaseIsIdempotent(cfg: Config, rows: Rows, ops: seq<Op>, id: Id, payer: string,
                             again: Id, spec: Spec, intent: Intent, at: int)
    requires WellFormedTable(rows) && id in rows && payer != ""
    requires PayerRow(rows[id], payer, spec.key) && intent.payer == Some(payer)
    ensures var later := Run(cfg, rows, ops);
            && id in later
            && PrepareOutcome(cfg, later, again, spec, Some(intent), at)
               == (if SpecMatches(rows[id], spec) then Replayed(later[id]) else SpecConflict(later[id]))
            && Apply(cfg, later, Prepare(again, spec, Some(intent), at)) == later
  {
    RunKeeps(cfg, rows, ops);
    OwnRowFound(Run(cfg, rows, ops), id, spec.key, payer);
  }

  /** A row without a payer reserves its key against every payer who has no row of their own. */
  lemma LegacyRowReservesKey(cfg: Config, rows: Rows, id: Id, payer: string,
                             again: Id, spec: Spec, intent: Intent, at: int)
    requires id in rows && LegacyRow(rows[id], spec.key)
    requires payer != "" && intent.payer == Some(payer)
    ensures PrepareOutcome(cfg, rows, again, spec, Some(intent), at) == LegacyReserved
       <==> !exists own :: own in rows && PayerRow(rows[own], payer, spec.key)
  {
    var exact := FindRow(rows, r => PayerRow(r, payer, spec.key));
    var legacy := FindRow(rows, r => LegacyRow(r, spec.key));
    assert LegacyRow(rows[id], spec.key);
    assert legacy.Some?;
  }

  /** A service payment that ever backed one watch never backs another. */
  lemma ServicePaymentBacksOneWatch(cfg: Config, rows: Rows, ops: seq<Op>, i: Id, j: Id)
    requires WellFormedTable(rows) && i in rows && rows[i].service.Some?
    requires var later := Run(cfg, rows, ops);
             j in later && later[j].service.Some? && later[j].service.value.tx == rows[i].service.value.tx
    ensures i == j
  {
    RunKeeps(cfg, rows, ops);
    var later := Run(cfg, rows, ops);
    assert Evolves(rows[i], later[i]);
    if i != j { assert Clash(later[i], later[j]); }
  }

  // ---- Work budget -------------------------------------------------------------------------

  /** A charge against a plan that no longer holds leaves the table untouched. */
  lemma StaleChargeChangesNothing(cfg: Config, rows: Rows, id: Id, plan: WorkClaim, at: int)
    requires id in rows && !Eligible(rows[id], plan, at)
    ensures Apply(cfg, rows, Claim(id, plan, at)) == rows
  {
  }

  /** How many due, still-valid charges against this watch the run contains. */
  ghost function DueCharges(cfg: Config, rows: Rows, ops: seq<Op>, id: Id): nat
    decreases |ops|
  {
    if ops == [] then 0
    else
      (if ops[0].Claim? && ops[0].id == id && id in rows && Eligible(rows[id], ops[0].plan, ops[0].at)
       then 1 else 0)
      + DueCharges(cfg, Apply(cfg, rows, ops[0]), ops[1..], id)
  }

  /** A charge touches no unique column, so it is never rolled back. */
  lemma ChargeAdmitted(cfg: Config, rows: Rows, op: Op)
    requires WellFormedTable(rows) && op.Claim? && op.id in rows
    ensures Apply(cfg, rows, op) == rows[op.id := UpdateRow(op, rows[op.id])]
  {
    hide UpdateRow, Clash, WellFormed;
    forall other | other in rows && other != op.id ensures !Clash(UpdateRow(op, rows[op.id]), rows[other]) {
      ChargeClash(op, rows[op.id], rows[other]);
    }
  }

  lemma ChargeClash(op: Op, r: Row, s: Row)
    requires op.Claim?
    ensures Clash(UpdateRow(op, r), s) == Clash(r, s)
  {
    hide Eligible;
  }

  /** One statement lowers the remaining budget of an open watch by one exactly for a due charge, or closes it. */
  lemma ChargeCounts(cfg: Config, rows: Rows, op: Op, id: Id)
    requires WellFormedTable(rows) && id in rows && rows[id].budget.Some?
    ensures var next := Apply(cfg, rows, op);
            && id in next && next[id].budget == rows[id].budget
            && (op.Claim? && op.id == id && Eligible(rows[id], op.plan, op.at) && Open(next[id])
                ==> next[id].used == rows[id].used + 1)
            && rows[id].used <= next[id].used
  {
    hide Apply, UpdateRow, WellFormedTable, Eligible, Open;
    ApplyKeeps(cfg, rows, op);
    assert Evolves(rows[id], Apply(cfg, rows, op)[id]);
    if op.Claim? && op.id == id {
      ChargeAdmitted(cfg, rows, op);
      if Eligible(rows[id], op.plan, op.at) && Open(UpdateRow(op, rows[id])) { DueCharge(op, rows[id]); }
    }
  }

  lemma DueCharge(op: Op, r: Row)
    requires op.Claim? && r.budget.Some? && Eligible(r, op.plan, op.at) && Open(UpdateRow(op, r))
    ensures UpdateRow(op, r).used == r.used + 1
  {
  }

  /**
   The remaining budget is a termination measure: whatever else happens in between, one more due
   charge than the budget still allows leaves the watch closed.
   */
  lemma {:induction false} BudgetCloses(cfg: Config, rows: Rows, ops: seq<Op>, id: Id)
    requires WellFormedTable(rows) && id in rows && rows[id].budget.Some?
    requires DueCharges(cfg, rows, ops, id) > rows[id].budget.value - rows[id].used
    ensures id in Run(cfg, rows, ops) && !Open(Run(cfg, rows, ops)[id])
    decreases |ops|
  {
    var next := Apply(cfg, rows, ops[0]);
    ApplyKeeps(cfg, rows, ops[0]);
    ChargeCounts(cfg, rows, ops[0], id);
    if Open(next[id]) {
      BudgetCloses(cfg, next, ops[1..], id);
    } else {
      RunKeeps(cfg, next, ops[1..]);
    }
  }
}
