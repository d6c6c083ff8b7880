/**
 The confirmed chain, past and future, and an honest paged Indexer over it.

 Assumptions, all stated here: block times never decrease; a response whose current round covers the
 requested window is one page of a fixed, token-chained partition of everything the query selects;
 every transfer a lookup or search reports is the confirmed one.
 */
module Chain {
  import opened Common
  import opened Watches
  import opened ScanQueries
  import opened ScanLaws

  datatype World = World(
    txns: nat -> seq<RawTx>,
    time: nat -> nat,
    pages: Query -> seq<seq<RawTx>>,
    token: (Query, nat) -> string,
    byId: string -> Option<Transfer>,
    found: string -> seq<seq<Transfer>>,
    foundToken: (string, nat) -> string,
    variant: Variant,
    network: string,
    window: nat,
    cfg: Config)

  datatype AbsencePage = AbsencePage(items: seq<Transfer>, currentRound: nat, next: Option<string>)

  /** A direct transfer confirmed on the chain. */
  ghost predicate Confirmed(world: World, t: Transfer) {
    exists raw :: raw in world.txns(t.round) && DirectTransfer(raw) == Some(t)
  }

  ghost predicate ChainSound(world: World) {
    && (forall a, b | 0 <= a <= b :: world.time(a) <= world.time(b))
    && (forall n: nat, raw | raw in world.txns(n) && DirectTransfer(raw).Some? ::
          && DirectTransfer(raw).value.round == n
          && DirectTransfer(raw).value.roundTime == world.time(n)
          && ShapeHolds(raw, "axfer"))
  }

  /** The fixed partition holds what the query selects, and only confirmed transfers in its window. */
  ghost predicate PartitionSound(world: World) {
    && (forall q :: |world.pages(q)| >= 1)
    && (forall q, n: nat, raw | raw in world.txns(n) && Returned(raw, q) ::
          exists k :: 0 <= k < |world.pages(q)| && raw in world.pages(q)[k])
    && (forall q, k, t | 0 <= k < |world.pages(q)| && t in Directs(world.pages(q)[k]) ::
          Confirmed(world, t) && InRange(t.round, q.minRound, q.maxRound))
    && (forall q, k :: world.token(q, k) != "")
    && (forall q, i, j | world.token(q, i) == world.token(q, j) :: i == j)
  }

  /** The transaction-id search: the confirmed transfer is on exactly the pages of a fixed partition. */
  ghost predicate LookupSound(world: World) {
    && (forall x, t | world.byId(x) == Some(t) :: t.tx == x)
    && (forall x :: |world.found(x)| >= 1)
    && (forall x | world.byId(x).Some? ::
          exists k :: 0 <= k < |world.found(x)| && world.byId(x).value in world.found(x)[k])
    && (forall x, k :: world.foundToken(x, k) != "")
    && (forall x, i, j | world.foundToken(x, i) == world.foundToken(x, j) :: i == j)
  }

  ghost predicate Honest(world: World) {
    ChainSound(world) && PartitionSound(world) && LookupSound(world)
  }

  /** The token that asks for page k; the first page is asked for without one. */
  function PageToken(world: World, q: Query, k: nat): Option<string> {
    if k == 0 then None else Some(world.token(q, k))
  }

  function NextPageToken(world: World, q: Query, k: nat): Option<string> {
    if k + 1 < |world.pages(q)| then PageToken(world, q, k + 1) else None
  }

  function FoundToken(world: World, x: string, k: nat): Option<string> {
    if k == 0 then None else Some(world.foundToken(x, k))
  }

  function NextFoundToken(world: World, x: string, k: nat): Option<string> {
    if k + 1 < |world.found(x)| then FoundToken(world, x, k + 1) else None
  }

  /** The Indexer's promise about one scan response; it says nothing when coverage is short. */
  ghost predicate HonestPage(world: World, key: Key, raw: RawPage) {
    raw.currentRound.Present? && key.query.maxRound <= raw.currentRound.value ==>
      exists k: nat :: k < |world.pages(key.query)|
        && key.token == PageToken(world, key.query, k)
        && raw.items == world.pages(key.query)[k]
        && TokenSent(raw.next) == NextPageToken(world, key.query, k)
  }

  /** The promise about one transaction-id search response. */
  ghost predicate HonestAbsence(world: World, x: string, token: Option<string>, page: AbsencePage) {
    && (forall item <- page.items :: world.byId(x) == Some(item))
    && (world.byId(x).Some? && world.byId(x).value.round <= page.currentRound ==>
          exists k: nat :: k < |world.found(x)|
            && token == FoundToken(world, x, k)
            && page.items == world.found(x)[k]
            && page.next == NextFoundToken(world, x, k))
  }

  ghost predicate HonestLookup(world: World, x: string, found: Option<Transfer>) {
    found.Some? ==> world.byId(x) == found
  }

  // ---- What can be said about a watch ------------------------------------------------------

  /** No payment that meets the contract is confirmed at or before the round. */
  ghost predicate Covered(world: World, w: Row, round: nat) {
    forall t | Confirmed(world, t) && t.round <= round :: !Matches(t, w)
  }

  /** No payment that meets the contract is confirmed anywhere, ever. */
  ghost predicate Unpaid(world: World, w: Row) {
    forall t | Confirmed(world, t) :: !Matches(t, w)
  }

  ghost predicate NoneMatch(ts: seq<Transfer>, w: Row) {
    forall i | 0 <= i < |ts| :: !Matches(ts[i], w)
  }

  /** Position p of page k delivers the transfer, and nothing delivered before it meets the contract. */
  ghost predicate FirstDelivered(world: World, w: Row, q: Query, k: nat, p: nat, t: Transfer) {
    && BuildQuery(w.spec, world.variant, q.minRound, q.maxRound) == Ok(q) && q.minRound >= 1
    && k < |world.pages(q)| && p < |Directs(world.pages(q)[k])| && Directs(world.pages(q)[k])[p] == t
    && Matches(t, w) && Confirmed(world, t)
    && (forall j: nat | j < k :: NoneMatch(Directs(world.pages(q)[j]), w))
    && (forall i: nat | i < p :: !Matches(Directs(world.pages(q)[k])[i], w))
    && Covered(world, w, q.minRound - 1)
  }

  ghost predicate Paid(world: World, w: Row, m: Match) {
    exists q, k, p, t :: FirstDelivered(world, w, q, k, p, t) && m == Match(t.tx, t.round)
  }

  /** Pages, read in order, list rounds in non-decreasing order. */
  ghost predicate RoundOrdered(world: World) {
    forall q, j, k, i, p |
      && 0 <= j <= k < |world.pages(q)|
      && 0 <= i < |Directs(world.pages(q)[j])| && 0 <= p < |Directs(world.pages(q)[k])|
      && (j < k || i <= p) ::
      Directs(world.pages(q)[j])[i].round <= Directs(world.pages(q)[k])[p].round
  }

  lemma SelectedIsListed(world: World, w: Row, q: Query, t: Transfer) returns (j: nat, i: nat)
    requires Honest(world)
    requires BuildQuery(w.spec, world.variant, q.minRound, q.maxRound) == Ok(q)
    requires Confirmed(world, t) && Matches(t, w) && InRange(t.round, q.minRound, q.maxRound)
    ensures j < |world.pages(q)| && i < |Directs(world.pages(q)[j])| && Directs(world.pages(q)[j])[i] == t
  {
    var raw :| raw in world.txns(t.round) && DirectTransfer(raw) == Some(t);
    NoVariantLosesPayment(raw, w, world.variant, q.minRound, q.maxRound);
    var k :| 0 <= k < |world.pages(q)| && raw in world.pages(q)[k];
    DirectListed(world.pages(q)[k], raw);
    j := k;
    i :| 0 <= i < |Directs(world.pages(q)[j])| && Directs(world.pages(q)[j])[i] == t;
  }

  /** When no page of a window that starts where coverage ends holds a match, coverage extends to its end. */
  lemma WindowCovers(world: World, w: Row, q: Query, scanAfter: nat)
    requires Honest(world) && Covered(world, w, scanAfter) && q.minRound == scanAfter + 1
    requires BuildQuery(w.spec, world.variant, q.minRound, q.maxRound) == Ok(q)
    requires forall j: nat | j < |world.pages(q)| :: NoneMatch(Directs(world.pages(q)[j]), w)
    ensures Covered(world, w, q.maxRound)
  {
    forall t | Confirmed(world, t) && t.round <= q.maxRound ensures !Matches(t, w) {
      if Matches(t, w) && t.round > scanAfter {
        var j, i := SelectedIsListed(world, w, q, t);
      }
    }
  }

  /** Coverage through a block at or past the deadline is a proof of absence for all time. */
  lemma CheckpointProvesAbsence(world: World, w: Row, closing: nat, scanAfter: nat)
    requires Honest(world) && Covered(world, w, scanAfter) && closing <= scanAfter
    requires w.expiresAt.Some? && w.expiresAt.value <= world.time(closing) * 1000
    ensures Unpaid(world, w)
  {
    forall t | Confirmed(world, t) ensures !Matches(t, w) {
      if t.round > scanAfter {
        var raw :| raw in world.txns(t.round) && DirectTransfer(raw) == Some(t);
        assert world.time(closing) <= world.time(t.round);
      }
    }
  }

  lemma LaterPosition(world: World, q: Query, j: nat, i: nat, k: nat, p: nat)
    requires RoundOrdered(world)
    requires j < |world.pages(q)| && k < |world.pages(q)|
    requires i < |Directs(world.pages(q)[j])| && p < |Directs(world.pages(q)[k])|
    requires Directs(world.pages(q)[j])[i].round < Directs(world.pages(q)[k])[p].round
    ensures j < k || (j == k && i < p)
  {
  }

  lemma FirstDeliveredIsEarliest(world: World, w: Row, q: Query, k: nat, p: nat, first: Transfer, t: Transfer)
    requires Honest(world) && RoundOrdered(world) && FirstDelivered(world, w, q, k, p, first)
    requires Confirmed(world, t) && Matches(t, w)
    ensures first.round <= t.round
  {
    if t.round < first.round {
      assert first in Directs(world.pages(q)[k]);
      var j, i := SelectedIsListed(world, w, q, t);
      LaterPosition(world, q, j, i, k, p);
    }
  }

  /** With pages in round order, the recorded round is the earliest one that holds a payment. */
  lemma FirstIsEarliest(world: World, w: Row, m: Match, t: Transfer)
    requires Honest(world) && RoundOrdered(world) && Paid(world, w, m)
    requires Confirmed(world, t) && Matches(t, w)
    ensures m.round <= t.round
  {
    var q, k, p, first :| FirstDelivered(world, w, q, k, p, first) && m == Match(first.tx, first.round);
    FirstDeliveredIsEarliest(world, w, q, k, p, first, t);
  }
}
