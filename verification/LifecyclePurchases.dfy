/** Every row of every reachable table was sold by one purchase of the history, and still says what was sold. */
module LifecyclePurchases {
  import opened Common
  import opened Watches
  import opened WatchLaws
  import opened Purchases
  import opened ScanQueries
  import opened Chain
  import opened Lifecycle
  import opened LifecycleStatements

  /** What a row keeps of its purchase for good: specification, deadline, terms, budget, and the intent's facts. */
  predicate SoldBy(cfg: Config, r: Row, e: Event) {
    && e.PrepareWatch? && r.id == e.id && r.spec == e.spec && r.createdAt == e.at
    && r.expiresAt == Some(e.at + cfg.ttl) && r.budget == Some(cfg.workBudget)
    && r.evidenceVersion == (if e.intent.Some? then 1 else 0)
    && r.terms == (if e.intent.Some? then Some(e.intent.value.terms) else None)
    && (e.intent.Some? ==> r.expectedTx == Some(e.intent.value.tx) && r.expectedNetwork == Some(e.intent.value.network))
    && (e.intent.Some? && e.intent.value.payer.Some? ==> r.expectedPayer == e.intent.value.payer)
  }

  lemma JustSoldBy(cfg: Config, r: Row, e: Event)
    requires e.PrepareWatch? && JustSold(cfg, r, e.id, e.spec, e.intent, e.at)
    ensures SoldBy(cfg, r, e)
  {
  }

  lemma StaysSold(cfg: Config, r: Row, later: Row, e: Event)
    requires SoldBy(cfg, r, e) && Evolves(r, later)
    ensures SoldBy(cfg, later, e)
  {
  }

  lemma {:induction false} PlainAddsNothing(cfg: Config, rows: Rows, ops: seq<Op>, id: Id)
    requires forall op <- ops :: Plain(op)
    ensures id in Watches.Run(cfg, rows, ops) <==> id in rows
    decreases |ops|
  {
    hide Apply;
    if ops != [] {
      assert ops[0] in ops;
      PlainOpKeepsActivation(cfg, rows, ops[0], id);
      PlainAddsNothing(cfg, Apply(cfg, rows, ops[0]), ops[1..], id);
    }
  }

  /** A row that was not there before the step was inserted by it. */
  lemma NewRowSold(world: World, s: State, e: Event, id: Id)
    requires id in Step(world, s, e).rows && id !in s.rows
    ensures SoldBy(world.cfg, Step(world, s, e).rows[id], e)
  {
    hide Step, Watches.Run, PrepareOutcome, JustSold, SoldBy;
    var later := Step(world, s, e).rows;
    if e.PrepareWatch? {
      PrepareRows(world, s, e);
      OutcomeExactly(world.cfg, s.rows, e.id, e.spec, e.intent, e.at);
      JustSoldBy(world.cfg, later[id], e);
    } else {
      hide Apply;
      StepRows(world, s, e);
      if Stmts(world.cfg, s.rows, later) {
        var ops: seq<Op> :| (forall op <- ops :: Plain(op)) && later == Watches.Run(world.cfg, s.rows, ops);
        PlainAddsNothing(world.cfg, s.rows, ops, id);
      } else {
        var op: Op :| op.Activate? && later == Apply(world.cfg, s.rows, op);
        ActivationAddsNothing(world.cfg, s.rows, op);
      }
      assert false;
    }
  }

  lemma ActivationAddsNothing(cfg: Config, rows: Rows, op: Op)
    requires op.Activate?
    ensures Apply(cfg, rows, op).Keys == rows.Keys
  {
  }

  lemma {:induction false} RowsAreSold(world: World, s: State, events: seq<Event>, id: Id) returns (k: nat)
    requires WellFormedTable(s.rows) && id !in s.rows && id in Lifecycle.Run(world, s, events).rows
    ensures k < |events| && SoldBy(world.cfg, Lifecycle.Run(world, s, events).rows[id], events[k])
    decreases |events|
  {
    hide Step, WellFormedTable, TableEvolves, SoldBy;
    var next := Step(world, s, events[0]);
    StepEvolves(world, s, events[0]);
    if id in next.rows {
      NewRowSold(world, s, events[0], id);
      RunEvolves(world, next, events[1..]);
      StaysSoldOver(world.cfg, next.rows, Lifecycle.Run(world, s, events).rows, id, events[0]);
      k := 0;
    } else {
      k := RowsAreSold(world, next, events[1..], id);
      k := k + 1;
    }
  }

  lemma StaysSoldOver(cfg: Config, rows: Rows, later: Rows, id: Id, e: Event)
    requires TableEvolves(rows, later) && id in rows && SoldBy(cfg, rows[id], e)
    ensures id in later && SoldBy(cfg, later[id], e)
  {
    StaysSold(cfg, rows[id], later[id], e);
  }

  /**
   However the run went, each row is the outcome of one purchase in it, and still carries that purchase's
   specification and terms, a deadline that is its creation plus the configured lifetime, and the configured budget.
   */
  lemma RowComesFromPurchase(world: World, events: seq<Event>, id: Id)
    requires id in Lifecycle.Run(world, Start(), events).rows
    ensures exists k :: 0 <= k < |events| && SoldBy(world.cfg, Lifecycle.Run(world, Start(), events).rows[id], events[k])
    ensures var r := Lifecycle.Run(world, Start(), events).rows[id]; r.expiresAt == Some(r.createdAt + world.cfg.ttl)
  {
    hide Lifecycle.Run;
    NothingOpen(world.cfg);
    var k := RowsAreSold(world, Start(), events, id);
  }
}
