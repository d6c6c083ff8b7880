/** The assumptions about the chain and the Indexer can be met, for any transfer one cares to confirm. */
module HonestWorlds {
  import opened Common
  import opened Watches
  import opened ScanQueries
  import opened ScanLaws
  import opened Chain

  /** A token per page, never empty and never repeated. */
  function Mark(k: nat): (token: string)
    ensures |token| == k + 1
  {
    seq(k + 1, _ => 'a')
  }

  ghost function OnlyPage(raw: RawTx, q: Query): seq<RawTx> {
    if Returned(raw, q) then [raw] else []
  }

  /** A chain that holds one transaction, served on a single page. */
  ghost function Single(raw: RawTx, t: Transfer, variant: Variant, network: string, window: nat, cfg: Config): World {
    World(n => if n == t.round then [raw] else [],
          n => t.roundTime,
          q => [OnlyPage(raw, q)],
          (q: Query, k: nat) => Mark(k),
          x => if x == t.tx then Some(t) else None,
          x => [if x == t.tx then [t] else []],
          (x: string, k: nat) => Mark(k),
          variant, network, window, cfg)
  }

  lemma OneDirect(raw: RawTx, t: Transfer)
    requires DirectTransfer(raw) == Some(t)
    ensures Directs([raw]) == [t] && Directs([]) == []
  {
    assert [raw][1..] == [];
  }

  lemma RoundOf(raw: RawTx, t: Transfer, q: Query)
    requires DirectTransfer(raw) == Some(t)
    ensures Returned(raw, q) ==> InRange(t.round, q.minRound, q.maxRound)
  {
  }

  lemma PageIsSound(raw: RawTx, t: Transfer, world: World, q: Query)
    requires DirectTransfer(raw) == Some(t) && world.pages(q) == [OnlyPage(raw, q)] && Confirmed(world, t)
    ensures forall u <- Directs(world.pages(q)[0]) :: Confirmed(world, u) && InRange(u.round, q.minRound, q.maxRound)
    ensures |Directs(world.pages(q)[0])| <= 1
  {
    OneDirect(raw, t);
    RoundOf(raw, t, q);
    hide Returned, DirectTransfer, Confirmed, Directs;
  }

  lemma PagesAreSound(raw: RawTx, t: Transfer, world: World)
    requires DirectTransfer(raw) == Some(t)
    requires world == Single(raw, t, world.variant, world.network, world.window, world.cfg)
    ensures PartitionSound(world) && RoundOrdered(world) && Confirmed(world, t)
  {
    assert raw in world.txns(t.round);
    hide Returned, DirectTransfer, Directs, Mark;
    forall q ensures world.pages(q) == [OnlyPage(raw, q)] && |Directs(world.pages(q)[0])| <= 1
                  && forall u <- Directs(world.pages(q)[0]) :: Confirmed(world, u) && InRange(u.round, q.minRound, q.maxRound)
    {
      PageIsSound(raw, t, world, q);
    }
    forall q, n: nat, r | r in world.txns(n) && Returned(r, q) ensures exists k :: 0 <= k < |world.pages(q)| && r in world.pages(q)[k] {
      assert r in world.pages(q)[0];
    }
  }

  lemma LookupsAreSound(raw: RawTx, t: Transfer, world: World)
    requires world == Single(raw, t, world.variant, world.network, world.window, world.cfg)
    ensures LookupSound(world)
  {
    hide Mark;
    forall x | world.byId(x).Some? ensures exists k :: 0 <= k < |world.found(x)| && world.byId(x).value in world.found(x)[k] {
      assert t in world.found(x)[0];
    }
  }

  lemma ChainIsSound(raw: RawTx, t: Transfer, world: World)
    requires raw.RawTx? && DirectTransfer(raw) == Some(t) && ShapeHolds(raw, "axfer")
    requires world == Single(raw, t, world.variant, world.network, world.window, world.cfg)
    ensures ChainSound(world)
  {
    hide DirectTransfer, ShapeHolds;
  }

  /** Any single direct transfer is confirmed in some honest world whose pages are in round order. */
  lemma HonestWorldExists(raw: RawTx, t: Transfer, variant: Variant, network: string, window: nat, cfg: Config)
    returns (world: World)
    requires raw.RawTx? && DirectTransfer(raw) == Some(t) && ShapeHolds(raw, "axfer")
    ensures Honest(world) && RoundOrdered(world) && Confirmed(world, t)
    ensures world.variant == variant && world.network == network && world.window == window && world.cfg == cfg
  {
    world := Single(raw, t, variant, network, window, cfg);
    hide DirectTransfer, ShapeHolds, ChainSound, PartitionSound, LookupSound, RoundOrdered, Confirmed;
    ChainIsSound(raw, t, world);
    PagesAreSound(raw, t, world);
    LookupsAreSound(raw, t, world);
  }
}
