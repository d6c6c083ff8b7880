/** The recursive inspection with its shared visit counter, as the client runs it. */
module InnerTransactions {
  import opened Common
  import opened Watches
  import opened ScanQueries

  class Traversal {
    var visited: nat

    constructor ()
      ensures visited == 0
    {
      visited := 0;
    }
  }

  method InspectInner(raw: RawTx, minRound: nat, maxRound: nat, spec: Spec, plan: Plan, depth: nat,
                      traversal: Traversal)
    returns (r: Result<bool>)
    modifies traversal
    ensures var s := Inspect(raw, minRound, maxRound, spec, plan, depth, old(traversal.visited));
            && (r.Ok? <==> s.Ok?)
            && (r.Ok? ==> (r.value, traversal.visited) == s.value)
    decreases raw
  {
    if depth > MAX_INNER_DEPTH { return Thrown; }
    traversal.visited := traversal.visited + 1;
    if traversal.visited > MAX_INNER_ITEMS { return Thrown; }
    var shared := ParseShared(raw, false);
    if shared.Thrown? || !ShapeHolds(raw, shared.value.txType) { return Thrown; }
    if !InRange(shared.value.round, minRound, maxRound) { return Thrown; }
    if shared.value.txType == "axfer" {
      var e := ParseEnvelope(raw, false);
      return if e.Thrown? then Thrown else Ok(Satisfies(e.value, spec, plan));
    }
    if !raw.inner.InnerArray? { return Ok(false); }

    var children := raw.inner.children;
    ghost var spec0 := InspectAll(children, minRound, maxRound, spec, plan, depth + 1, traversal.visited);
    var queryMatch := false;
    var i := 0;
    while i < |children|
      invariant 0 <= i <= |children|
      invariant var rest := InspectAll(children[i..], minRound, maxRound, spec, plan, depth + 1, traversal.visited);
                && (spec0.Ok? <==> rest.Ok?)
                && (spec0.Ok? ==> spec0.value == (queryMatch || rest.value.0, rest.value.1))
    {
      assert children[i..][1..] == children[i + 1..];
      var child := InspectInner(children[i], minRound, maxRound, spec, plan, depth + 1, traversal);
      if child.Thrown? { return Thrown; }
      queryMatch := child.value || queryMatch;
      i := i + 1;
    }
    return Ok(queryMatch);
  }
}
