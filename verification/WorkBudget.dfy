/** The request budget of one turn, and the ceiling a watch's work budget puts on background requests. */
module WorkBudget {
  import opened Common
  import opened Watches
  import opened ScanQueries
  import opened Chain
  import opened Lifecycle
  import opened LifecycleMetering
  import opened WatchLaws

  class IndexerRequestTurnBudget {
    const limit: nat
    var used: nat

    ghost predicate Valid()
      reads this
    {
      0 < limit && used <= limit
    }

    constructor (limit: nat)
      requires limit > 0
      ensures Valid() && this.limit == limit && used == 0
    {
      this.limit := limit;
      used := 0;
    }

    /** The charge before an operation: refused, with nothing changed, once the limit is spent. */
    method Run() returns (charged: bool)
      requires Valid()
      modifies this`used
      ensures Valid() && charged == (old(used) < limit)
      ensures used == old(used) + if charged then 1 else 0
    {
      if used >= limit {
        return false;
      }
      used := used + 1;
      return true;
    }
  }

  /** maxBackgroundIndexerRequestsForWorkBudget: refused for non-positive budgets and unsafe products. */
  function MaxBackgroundRequests(budget: int): Result<nat> {
    if budget <= 0 || budget > MAX_SAFE_INTEGER || budget * MAX_POLLING_REQUESTS > MAX_SAFE_INTEGER then Thrown
    else Ok(budget * MAX_POLLING_REQUESTS)
  }

  /** A ceiling is published exactly for a positive budget whose fourfold is a safe integer, and is that fourfold. */
  lemma CeilingExactly(budget: int)
    ensures MaxBackgroundRequests(budget).Ok? <==> 0 < budget && 4 * budget <= 9007199254740991
    ensures MaxBackgroundRequests(budget).Ok? ==> MaxBackgroundRequests(budget).value == 4 * budget
  {
  }

  /** The published ceiling holds for every watch in every run: no history sends more requests for it. */
  lemma CeilingHolds(world: World, events: seq<Event>, id: Id, ceiling: nat)
    requires id in Lifecycle.Run(world, Start(), events).rows
    requires var r := Lifecycle.Run(world, Start(), events).rows[id];
             r.budget.Some? && MaxBackgroundRequests(r.budget.value) == Ok(ceiling)
    ensures var s := Lifecycle.Run(world, Start(), events); id in s.ledger && Sum(s.ledger[id]) <= ceiling
  {
    hide Lifecycle.Run, Sum;
    RequestsBounded(world, events, id);
  }
}
