/**
 Liveness of the scan, with a bound: past the deadline, undisturbed turns that get answers decide the watch, and
 decide it rightly, within as many turns as the rounds and pages that are left.
 */
module Decisions {
  import opened Common
  import opened Watches
  import opened WatchLaws
  import opened ScanQueries
  import opened ScanLaws
  import opened Payments
  import opened Chain
  import opened Lifecycle
  import opened RowSoundness
  import opened LifecycleSafety
  import opened PollingSafety
  import opened Verdicts
  import opened PollingTurns
  import opened PollingService

  /** A polling turn after the deadline that finds something to scan and gets its answer. */
  ghost predicate Helpful(world: World, s: State, w: Row, v: Visit)
    requires w.scanAfter.Some? && w.expiresAt.Some?
  {
    && v.turn !in s.turns && v.session !in s.scans && (w.retryAt.Some? ==> w.retryAt.value <= v.at)
    && w.expiresAt.value <= v.now && w.expiresAt.value <= world.time(v.checkpoint) * 1000
    && w.scanAfter.value < v.tip && WellAnswered(world, s, w, v)
  }

  /** Turns on one watch, one after another, until it is no longer active. */
  ghost function Service(world: World, s: State, id: Id, visits: seq<Visit>): State
    decreases |visits|
  {
    if visits == [] || id !in s.rows || !s.rows[id].state.Active? || !Pollable(s.rows[id]) then s
    else Service(world, Sweep(world, s, s.rows[id], visits[0]), id, visits[1..])
  }

  ghost predicate AllHelpful(world: World, s: State, id: Id, visits: seq<Visit>)
    decreases |visits|
  {
    visits != [] && id in s.rows && s.rows[id].state.Active? && Pollable(s.rows[id]) ==>
      && Helpful(world, s, s.rows[id], visits[0])
      && AllHelpful(world, Sweep(world, s, s.rows[id], visits[0]), id, visits[1..])
  }

  /** No window has more pages than this. */
  ghost predicate PagesWithin(world: World, most: nat) {
    forall q :: |world.pages(q)| <= most
  }

  /** Pages the session of this window has behind it. */
  ghost function Behind(s: State, w: Row, closing: nat): nat
    requires w.scanAfter.Some?
  {
    PageWanted(s, w.(closing := Some(closing)))
  }

  /** The turns that rounds and pages leave to do, at most, before the closing round is reached. */
  ghost function TurnsLeft(s: State, w: Row, closing: nat, most: nat): int
    requires w.scanAfter.Some?
  {
    if closing <= w.scanAfter.value then 0 else (closing - w.scanAfter.value) * most - Behind(s, w, closing)
  }

  lemma ClosingIs(world: World, s: State, w: Row, v: Visit)
    requires w.scanAfter.Some? && w.expiresAt.Some? && Helpful(world, s, w, v)
    ensures ClosingAfter(world, w, v) == Some(w.closing.GetOr(v.checkpoint))
  {
    hide WellAnswered;
  }

  /** A window that opens now reaches past the cursor; a session's window already does. */
  lemma SomethingToScan(world: World, s: State, w: Row, v: Visit, closing: nat)
    requires Inv(world, s) && Pollable(w) && Helpful(world, s, w, v) && world.window > 0 && w.scanAfter.value < closing
    requires Charged(world, w, v).closing == Some(closing)
    ensures w.scanAfter.value < Reach(world, s, Charged(world, w, v), v) <= closing
  {
    hide Inv, WellAnswered;
    var after := Charged(world, w, v);
    ReachWithinClosing(world, s, after, v);
    if HasSession(s, after) { SessionPastCursor(world, s, after); }
  }

  lemma FewerPages(rounds: nat, covered: nat, k: nat, most: nat)
    requires 1 <= covered <= rounds && k < most
    ensures 0 <= (rounds - covered) * most <= rounds * most - k - 1
    ensures rounds * most - k >= 1
  {
    assert (rounds - covered) * most == rounds * most - covered * most;
    assert covered * most >= most by { MulAtLeast(covered, most); }
    assert rounds * most >= most by { MulAtLeast(rounds, most); }
    MulAtLeast0(rounds - covered, most);
  }

  lemma MulAtLeast(a: nat, b: nat)
    requires a >= 1
    ensures a * b >= b
  {
  }

  lemma MulAtLeast0(a: nat, b: nat)
    ensures a * b >= 0
  {
  }

  predicate SameContractAs(w: Row, r: Row) {
    r.spec == w.spec && r.activationRound == w.activationRound && r.expiresAt == w.expiresAt
  }

  /** One helpful turn decides the watch, or leaves fewer turns to do under the same closing round. */
  lemma TurnProgresses(world: World, s: State, w: Row, v: Visit, most: nat)
    requires Honest(world) && Inv(world, s) && w.id in s.rows && s.rows[w.id] == w && Servable(w, v.at)
    requires Helpful(world, s, w, v) && world.window > 0 && PagesWithin(world, most)
    ensures var later, closing := Sweep(world, s, w, v), w.closing.GetOr(v.checkpoint);
            && Inv(world, later) && w.id in later.rows
            && var r := later.rows[w.id];
            && r.id == w.id && r.budget == w.budget && r.used == w.used + 1 && SameContractAs(w, r)
            && (|| r.state.Matched? || r.state.Expired?
                || (r.state.Active? && Pollable(r) && r.closing == Some(closing) && TurnsLeft(s, w, closing, most) > 0
                    && 0 <= TurnsLeft(later, r, closing, most) < TurnsLeft(s, w, closing, most)))
  {
    hide Honest, Inv, Sweep, Reach, FirstPayment, BuildQuery, PagesWithin, HasSession, Helpful, SessionAt, PageWanted;
    hide Step, Answers, ClosingAfter, TurnsLeft;
    var closing := w.closing.GetOr(v.checkpoint);
    var after := Charged(world, w, v);
    HelpfulMeans(world, s, w, v);
    ClosingIs(world, s, w, v);
    TurnServes(world, s, w, v);
    if !Closes(after) {
      SomethingToScan(world, s, w, v, closing);
      var reach, k := Reach(world, s, after, v), PageWanted(s, after);
      var q := WindowQuery(world, w, reach).value;
      PagesBound(world, q, most);
      PageThere(world, w, q, k, v.raw);
      FewerPages(closing - w.scanAfter.value, reach - w.scanAfter.value, k, most);
      FewerPages(closing - w.scanAfter.value, 1, k, most);
      var later := Sweep(world, s, w, v);
      LeftNow(s, w, after, closing, most);
      if Midway(world, s, w, v) {
        LeftMidway(later, later.rows[w.id], closing, reach, k + 1, most);
      } else {
        LeftFresh(later, later.rows[w.id], closing, most);
      }
    }
  }

  lemma HelpfulMeans(world: World, s: State, w: Row, v: Visit)
    requires w.scanAfter.Some? && w.expiresAt.Some? && Helpful(world, s, w, v)
    ensures v.turn !in s.turns && v.session !in s.scans && WellAnswered(world, s, w, v)
  {
    hide WellAnswered;
  }

  lemma PagesBound(world: World, q: Query, most: nat)
    requires PagesWithin(world, most)
    ensures |world.pages(q)| <= most
  {
  }

  lemma PageThere(world: World, w: Row, q: Query, k: nat, raw: RawPage)
    requires Answers(world, w, q, k, raw)
    ensures k < |world.pages(q)|
  {
    hide ParsePage;
  }

  lemma LeftNow(s: State, w: Row, after: Row, closing: nat, most: nat)
    requires w.scanAfter.Some? && after.id == w.id && after.scanAfter == w.scanAfter && after.closing == Some(closing) && closing > w.scanAfter.value
    ensures TurnsLeft(s, w, closing, most) == (closing - w.scanAfter.value) * most - PageWanted(s, after)
  {
  }

  lemma LeftMidway(s: State, r: Row, closing: nat, reach: nat, k: nat, most: nat)
    requires r.scanAfter.Some? && r.closing == Some(closing) && closing > r.scanAfter.value && SessionAt(s, r, reach, k)
    ensures TurnsLeft(s, r, closing, most) == (closing - r.scanAfter.value) * most - k
  {
    assert r.(closing := Some(closing)) == r;
  }

  lemma LeftFresh(s: State, r: Row, closing: nat, most: nat)
    requires r.scanAfter.Some? && r.id !in s.scanOf
    ensures TurnsLeft(s, r, closing, most) == if closing <= r.scanAfter.value then 0 else (closing - r.scanAfter.value) * most
  {
  }

  lemma {:induction false} ServiceDecides(world: World, s: State, id: Id, visits: seq<Visit>, closing: nat, most: nat)
    requires Honest(world) && Inv(world, s) && id in s.rows && s.rows[id].id == id && s.rows[id].state.Active? && Pollable(s.rows[id])
    requires world.window > 0 && PagesWithin(world, most) && AllHelpful(world, s, id, visits)
    requires visits != [] && closing == s.rows[id].closing.GetOr(visits[0].checkpoint)
    requires s.rows[id].budget.Some? && s.rows[id].used + |visits| <= s.rows[id].budget.value
    requires |visits| > TurnsLeft(s, s.rows[id], closing, most)
    ensures var later := Service(world, s, id, visits);
            && Inv(world, later) && id in later.rows && SameContractAs(s.rows[id], later.rows[id])
            && (later.rows[id].state.Matched? || later.rows[id].state.Expired?)
    decreases |visits|
  {
    hide Honest, Inv, Sweep, PagesWithin, Helpful, TurnsLeft;
    var w := s.rows[id];
    HelpfulDue(world, s, w, visits[0]);
    TurnProgresses(world, s, w, visits[0], most);
    var next := Sweep(world, s, w, visits[0]);
    if next.rows[id].state.Active? {
      ServiceDecides(world, next, id, visits[1..], closing, most);
    } else {
      assert Service(world, next, id, visits[1..]) == next;
    }
  }

  lemma HelpfulDue(world: World, s: State, w: Row, v: Visit)
    requires w.state.Active? && Pollable(w) && Helpful(world, s, w, v) && w.budget.Some? && w.used < w.budget.value
    ensures Servable(w, v.at)
  {
    hide WellAnswered;
  }

  /** Some transaction on the chain pays for the watch. */
  ghost predicate IsPaid(world: World, w: Row) {
    exists n: nat, raw :: raw in world.txns(n) && PaysFor(raw, w)
  }

  lemma VerdictIsRight(world: World, s: State, id: Id)
    requires Honest(world) && Inv(world, s) && id in s.rows
    ensures s.rows[id].state.Matched? ==> IsPaid(world, s.rows[id])
    ensures s.rows[id].state.Expired? ==> !IsPaid(world, s.rows[id])
  {
    var r := s.rows[id];
    RowMeans(world, s, id);
    hide Inv, Honest, Covered, PaysFor, Confirmed, Matches, RowSound, DirectTransfer;
    if r.state.Matched? {
      var q, k, p, t :| FirstDelivered(world, r, q, k, p, t) && r.matched.value == Match(t.tx, t.round);
      ConfirmedOnFields(world, t, r);
    } else if r.state.Expired? {
      CheckpointProvesAbsence(world, r, r.closing.value, r.scanAfter.value);
      forall n: nat, raw | raw in world.txns(n) ensures !PaysFor(raw, r) { NothingPays(world, r, n, raw); }
    }
  }

  lemma RowMeans(world: World, s: State, id: Id)
    requires Inv(world, s) && id in s.rows
    ensures var r := s.rows[id];
            && (r.state.Matched? ==> r.matched.Some? && Paid(world, r, r.matched.value))
            && (r.state.Expired? ==> && r.scanAfter.Some? && r.closing.Some? && r.closing.value <= r.scanAfter.value
                                     && Covered(world, r, r.scanAfter.value)
                                     && r.expiresAt.Some? && r.expiresAt.value <= world.time(r.closing.value) * 1000)
  {
    hide ListedSound, ScansSound, ScansOwned, ProofsSound, ProofsOwned, PagesSound, TurnsSound, Paid, Covered, NeverPaid, Activated;
    assert RowSound(world, s.rows[id]);
  }

  lemma NothingPays(world: World, r: Row, n: nat, raw: RawTx)
    requires Honest(world) && Unpaid(world, r) && raw in world.txns(n)
    ensures !PaysFor(raw, r)
  {
    hide PartitionSound, LookupSound, Matches, PaysFor, DirectTransfer;
    ContractOnFields(raw, r);
    if PaysFor(raw, r) { PaidConfirmed(world, n, raw, r); }
  }

  /**
   From any state of the machine: when the deadline has passed, undisturbed turns that get their answers close an
   active watch within as many turns as rounds times pages that are left before the closing round, budget allowing;
   and the verdict is right: matched if and only if some transaction on the chain pays for the watch, else expired.
   */
  lemma DecidedRightlyInTime(world: World, s: State, id: Id, visits: seq<Visit>, most: nat)
    requires Honest(world) && Inv(world, s) && id in s.rows && s.rows[id].state.Active? && Pollable(s.rows[id])
    requires world.window > 0 && PagesWithin(world, most) && AllHelpful(world, s, id, visits)
    requires visits != [] && s.rows[id].budget.Some? && s.rows[id].used + |visits| <= s.rows[id].budget.value
    requires |visits| > TurnsLeft(s, s.rows[id], s.rows[id].closing.GetOr(visits[0].checkpoint), most)
    ensures var later := Service(world, s, id, visits);
            id in later.rows && later.rows[id].state == (if IsPaid(world, s.rows[id]) then Matched else Expired)
  {
    hide Honest, Inv, Sweep, PagesWithin, AllHelpful, TurnsLeft, Service, PaysFor;
    KeyedById(world, s, id);
    ServiceDecides(world, s, id, visits, s.rows[id].closing.GetOr(visits[0].checkpoint), most);
    var later := Service(world, s, id, visits);
    VerdictIsRight(world, later, id);
    forall raw ensures PaysFor(raw, later.rows[id]) == PaysFor(raw, s.rows[id]) { SameContractPays(raw, s.rows[id], later.rows[id]); }
  }

  lemma SameContractPays(raw: RawTx, w: Row, r: Row)
    requires SameContractAs(w, r)
    ensures PaysFor(raw, r) == PaysFor(raw, w)
  {
    hide IsPayment;
  }

  lemma KeyedById(world: World, s: State, id: Id)
    requires Inv(world, s) && id in s.rows
    ensures s.rows[id].id == id
  {
    hide ListedSound, ScansSound, ScansOwned, ProofsSound, ProofsOwned, PagesSound, TurnsSound, RowSound, WellFormed;
  }
}
