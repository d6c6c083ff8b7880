/** The verdicts of a watch in terms of the transactions on the chain, field by field, over every run. */
module Verdicts {
  import opened Common
  import opened Watches
  import opened ScanQueries
  import opened ScanLaws
  import opened Payments
  import opened Chain
  import opened Lifecycle
  import opened LifecycleTheorems

  lemma ConfirmedOnFields(world: World, t: Transfer, w: Row)
    requires Confirmed(world, t) && Matches(t, w)
    ensures exists raw :: raw in world.txns(t.round) && PaysFor(raw, w) && raw.id == Present(t.tx) && raw.round == Present(t.round)
  {
    var raw :| raw in world.txns(t.round) && DirectTransfer(raw) == Some(t);
    ContractOnFields(raw, w);
  }

  /** A matched watch names a transaction of the chain, by its id and round, whose own fields meet the whole contract. */
  lemma MatchedNamesPayment(world: World, events: seq<Event>, id: Id)
    requires Honest(world) && id in Lifecycle.Run(world, Start(), events).rows
    requires Lifecycle.Run(world, Start(), events).rows[id].state == Matched
    ensures var r := Lifecycle.Run(world, Start(), events).rows[id];
            && r.matched.Some?
            && exists raw :: && raw in world.txns(r.matched.value.round) && PaysFor(raw, r)
                             && raw.id == Present(r.matched.value.tx) && raw.round == Present(r.matched.value.round)
  {
    hide Honest, Lifecycle.Run, Confirmed, Matches, PaysFor;
    var r := Lifecycle.Run(world, Start(), events).rows[id];
    MatchedMeansPaid(world, events, id);
    var q, k, p, t :| FirstDelivered(world, r, q, k, p, t) && r.matched.value == Match(t.tx, t.round);
    ConfirmedOnFields(world, t, r);
  }

  /** A transaction on the chain that pays for a watch is a confirmed payment. */
  lemma PaidConfirmed(world: World, n: nat, raw: RawTx, w: Row)
    requires ChainSound(world) && raw in world.txns(n) && PaysFor(raw, w)
    ensures DirectTransfer(raw).Some? && Confirmed(world, DirectTransfer(raw).value) && Matches(DirectTransfer(raw).value, w)
  {
    ContractOnFields(raw, w);
    hide PaysFor, Matches, DirectTransfer;
  }

  /** An expired watch: no transaction of the chain, in any block, has fields that meet its contract. */
  lemma ExpiredHasNoPayment(world: World, events: seq<Event>, id: Id, n: nat, raw: RawTx)
    requires Honest(world) && id in Lifecycle.Run(world, Start(), events).rows
    requires Lifecycle.Run(world, Start(), events).rows[id].state == Expired && raw in world.txns(n)
    ensures !PaysFor(raw, Lifecycle.Run(world, Start(), events).rows[id])
  {
    hide Lifecycle.Run, PartitionSound, LookupSound, Matches, PaysFor, DirectTransfer;
    var r := Lifecycle.Run(world, Start(), events).rows[id];
    ExpiredMeansUnpaid(world, events, id);
    ContractOnFields(raw, r);
    if PaysFor(raw, r) { PaidConfirmed(world, n, raw, r); }
  }
}
