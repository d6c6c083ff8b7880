/** The settlement hook from end to end, left alone: what the payment's evidence and one lookup make of the watch. */
module SettlementHooks {
  import opened Common
  import opened Watches
  import opened WatchLaws
  import opened WatchStore
  import opened ScanQueries
  import opened Chain
  import opened Lifecycle
  import opened LifecycleSafety
  import opened LifecycleStatements
  import opened ReconcilingTurns

  /** A stored fact that is missing or empty, or says the same. */
  predicate NoConflict(stored: Option<string>, value: string) {
    stored.None? || stored.value == "" || stored.value == value
  }

  /** The evidence contradicts nothing the watch was sold with; an absent or empty payer says nothing. */
  predicate Compatible(r: Row, ev: Evidence) {
    && NoConflict(r.expectedTx, ev.tx) && NoConflict(r.expectedNetwork, ev.network)
    && (ev.payer.Some? && ev.payer.value != "" ==> NoConflict(r.expectedPayer, ev.payer.value))
  }

  /** The watch with the facts that it lacked. */
  function Filled(r: Row, ev: Evidence): Row {
    r.(expectedTx := Some(r.expectedTx.GetOr(ev.tx)), expectedNetwork := Some(r.expectedNetwork.GetOr(ev.network)),
       expectedPayer := if r.expectedPayer.Some? then r.expectedPayer else ev.payer)
  }

  /** The confirmed transfer is the payment that settled, under the terms the watch was sold with. */
  predicate PaidUnderTerms(r: Row, ev: Evidence, t: Transfer) {
    && t.tx == ev.tx && r.terms.Some? && r.expectedPayer == Some(t.sender)
    && t.receiver == r.terms.value.receiver && t.asset == r.terms.value.asset && t.amount == r.terms.value.amount
    && r.terms.value.firstValid <= t.round && t.round <= r.terms.value.lastValid
  }

  function ActiveBy(r: Row, ev: Evidence, round: nat, at: int): Row {
    r.(state := Active, service := Some(ev), activationRound := Some(round), activatedAt := Some(at), scanAfter := Some(round))
  }

  /** The watch after the lookup. */
  ghost function LookedUp(rows: Rows, r: Row, ev: Evidence, found: Option<Transfer>, at: int): Row {
    if found.None? then r
    else if !PaidUnderTerms(r, ev, found.value) then Rejected(r)
    else if PaymentTaken(rows, r.id, ev.tx) then r
    else ActiveBy(r, ev, found.value.round, at)
  }

  lemma FitsExactly(r: Row, ev: Evidence)
    ensures EvidenceFits(r, ev) <==> Compatible(r, ev)
  {
  }

  lemma EvidenceRecorded(world: World, s: State, t: nat, id: Id, ev: Evidence)
    requires WellFormedTable(s.rows) && t !in s.turns && id in s.rows && Unsettled(s.rows[id]) && !s.rows[id].terminal
    ensures var later := Step(world, s, Settled(t, id, ev));
            if Compatible(s.rows[id], ev) && Admits(s.rows, id, Filled(s.rows[id], ev))
            then later == s.(rows := s.rows[id := Filled(s.rows[id], ev)], turns := s.turns[t := Turn(0, AwaitActivation(id, ev), 0, 0)])
            else later == s
  {
    FitsExactly(s.rows[id], ev);
    if EvidenceFits(s.rows[id], ev) { CandidateFills(s.rows[id], id, ev); }
    hide WellFormedTable, Admits, EvidenceFits, Compatible, UpdateRow, Filled;
  }

  lemma CandidateFills(r: Row, id: Id, ev: Evidence)
    requires Unsettled(r) && !r.terminal && EvidenceFits(r, ev)
    ensures UpdateRow(RecordCandidate(id, ev), r) == Filled(r, ev)
  {
  }

  lemma LookupForHook(world: World, s: State, t: nat, id: Id, ev: Evidence, found: Option<Transfer>, at: int)
    requires t in s.turns && s.turns[t].pc == AwaitActivation(id, ev) && HonestLookup(world, ev.tx, found) && id in s.rows
    ensures Step(world, s, ActivationLookup(t, found, at))
         == if found.None? then Finish(s, t)
            else if PaidUnderTerms(s.rows[id], ev, found.value) then Finish(Store(world, s, Activate(id, ev, Some(found.value.round), at)), t)
            else Finish(Store(world, s, MarkInvalid(id)), t)
  {
    hide Store, Finish;
  }

  lemma ServiceFree(rows: Rows, id: Id, r: Row, later: Row, ev: Evidence)
    requires WellFormedTable(rows) && id in rows && rows[id] == r
    requires later.spec == r.spec && later.expectedPayer == r.expectedPayer && later.expectedTx == r.expectedTx && later.service == Some(ev)
    ensures Admits(rows, id, later) <==> !PaymentTaken(rows, id, ev.tx)
  {
    hide WellFormed, Clash;
    forall other | other in rows && other != id
      ensures Clash(later, rows[other]) <==> rows[other].service.Some? && rows[other].service.value.tx == ev.tx
    {
      assert !Clash(r, rows[other]);
      OnlyServiceClashes(r, later, rows[other], ev.tx);
    }
  }

  lemma ActivationStored(world: World, s: State, id: Id, ev: Evidence, round: nat, at: int)
    requires WellFormedTable(s.rows) && id in s.rows && Unsettled(s.rows[id]) && !s.rows[id].terminal && Compatible(s.rows[id], ev)
    ensures Store(world, s, Activate(id, ev, Some(round), at)).rows
         == if PaymentTaken(s.rows, id, ev.tx) then s.rows else s.rows[id := ActiveBy(s.rows[id], ev, round, at)]
  {
    FitsExactly(s.rows[id], ev);
    ServiceFree(s.rows, id, s.rows[id], ActiveBy(s.rows[id], ev, round, at), ev);
    hide WellFormedTable, Admits, EvidenceFits, Compatible, PaymentTaken;
    assert UpdateRow(Activate(id, ev, Some(round), at), s.rows[id]) == ActiveBy(s.rows[id], ev, round, at);
  }

  lemma FilledTaken(rows: Rows, id: Id, r: Row, tx: string)
    requires id in rows && r.id == id
    ensures PaymentTaken(rows[id := r], id, tx) == PaymentTaken(rows, id, tx)
  {
    assert forall other | other in rows && other != id :: rows[id := r][other] == rows[other];
  }

  lemma FilledWaits(r: Row, ev: Evidence)
    requires Unsettled(r) && !r.terminal && Compatible(r, ev)
    ensures Unsettled(Filled(r, ev)) && !Filled(r, ev).terminal && Filled(r, ev).id == r.id && Compatible(Filled(r, ev), ev)
  {
  }

  lemma HookPaid(world: World, s: State, t: nat, id: Id, ev: Evidence, found: Transfer, at: int)
    requires WellFormedTable(s.rows) && t in s.turns && s.turns[t].pc == AwaitActivation(id, ev) && HonestLookup(world, ev.tx, Some(found))
    requires id in s.rows && s.rows[id].id == id && Unsettled(s.rows[id]) && !s.rows[id].terminal && Compatible(s.rows[id], ev)
    requires PaidUnderTerms(s.rows[id], ev, found)
    ensures var later := Step(world, s, ActivationLookup(t, Some(found), at));
            t !in later.turns && later.rows == if PaymentTaken(s.rows, id, ev.tx) then s.rows else s.rows[id := ActiveBy(s.rows[id], ev, found.round, at)]
  {
    hide Step, WellFormedTable, Compatible, HonestLookup, PaymentTaken, PaidUnderTerms, ActiveBy, Store;
    LookupForHook(world, s, t, id, ev, Some(found), at);
    ActivationStored(world, s, id, ev, found.round, at);
  }

  lemma HookUnpaid(world: World, s: State, t: nat, id: Id, ev: Evidence, found: Option<Transfer>, at: int)
    requires WellFormedTable(s.rows) && t in s.turns && s.turns[t].pc == AwaitActivation(id, ev) && HonestLookup(world, ev.tx, found)
    requires id in s.rows && Unsettled(s.rows[id]) && (found.Some? ==> !PaidUnderTerms(s.rows[id], ev, found.value))
    ensures var later := Step(world, s, ActivationLookup(t, found, at));
            t !in later.turns && later.rows == if found.None? then s.rows else s.rows[id := Rejected(s.rows[id])]
  {
    hide Step, WellFormedTable, HonestLookup, PaidUnderTerms, Apply;
    LookupForHook(world, s, t, id, ev, found, at);
    UpdateAdmitted(world.cfg, s.rows, MarkInvalid(id));
  }

  /** The lookup's answer decides a watch whose facts are filled in. */
  lemma HookDecides(world: World, s: State, t: nat, id: Id, ev: Evidence, found: Option<Transfer>, at: int)
    requires WellFormedTable(s.rows) && t in s.turns && s.turns[t].pc == AwaitActivation(id, ev) && HonestLookup(world, ev.tx, found)
    requires id in s.rows && s.rows[id].id == id && Unsettled(s.rows[id]) && !s.rows[id].terminal && Compatible(s.rows[id], ev)
    ensures var later := Step(world, s, ActivationLookup(t, found, at));
            t !in later.turns && later.rows == s.rows[id := LookedUp(s.rows, s.rows[id], ev, found, at)]
  {
    hide Step, WellFormedTable, Compatible, HonestLookup, PaymentTaken, PaidUnderTerms, ActiveBy;
    assert s.rows[id := s.rows[id]] == s.rows;
    if found.Some? && PaidUnderTerms(s.rows[id], ev, found.value) {
      HookPaid(world, s, t, id, ev, found.value, at);
    } else {
      HookUnpaid(world, s, t, id, ev, found, at);
    }
  }

  /** Evidence that contradicts the watch, or facts of it that another watch holds: nothing changes. */
  lemma HookRefused(world: World, s: State, t: nat, id: Id, ev: Evidence, found: Option<Transfer>, at: int)
    requires WellFormedTable(s.rows) && t !in s.turns && id in s.rows && Unsettled(s.rows[id]) && !s.rows[id].terminal
    requires !(Compatible(s.rows[id], ev) && Admits(s.rows, id, Filled(s.rows[id], ev)))
    ensures Step(world, Step(world, s, Settled(t, id, ev)), ActivationLookup(t, found, at)) == s
  {
    hide Step, WellFormedTable, Admits, Compatible, Filled;
    EvidenceRecorded(world, s, t, id, ev);
    NoTurn(world, s, ActivationLookup(t, found, at));
  }

  /**
   Evidence that fits fills in the facts the watch lacked, and the lookup decides: nothing found leaves it so; a
   transfer that is the payment under the terms activates it from its round, unless another watch has that payment;
   any other rejects it for good.
   */
  lemma HookSettles(world: World, s: State, t: nat, id: Id, ev: Evidence, found: Option<Transfer>, at: int)
    requires WellFormedTable(s.rows) && t !in s.turns && id in s.rows && Unsettled(s.rows[id]) && !s.rows[id].terminal
    requires HonestLookup(world, ev.tx, found)
    requires Compatible(s.rows[id], ev) && Admits(s.rows, id, Filled(s.rows[id], ev))
    ensures var later := Step(world, Step(world, s, Settled(t, id, ev)), ActivationLookup(t, found, at));
            t !in later.turns && later.rows == s.rows[id := LookedUp(s.rows, Filled(s.rows[id], ev), ev, found, at)]
  {
    hide Step, WellFormedTable, Admits, Compatible, HonestLookup, PaymentTaken, Filled, LookedUp, TableEvolves;
    var r, s1 := s.rows[id], Step(world, s, Settled(t, id, ev));
    EvidenceRecorded(world, s, t, id, ev);
    HookRowKeyed(s.rows, id);
    StepEvolves(world, s, Settled(t, id, ev));
    FilledWaits(r, ev);
    HookDecides(world, s1, t, id, ev, found, at);
    SameLookup(s.rows, id, Filled(r, ev), ev, found, at);
  }

  lemma SameLookup(rows: Rows, id: Id, r: Row, ev: Evidence, found: Option<Transfer>, at: int)
    requires id in rows && r.id == id
    ensures LookedUp(rows[id := r], r, ev, found, at) == LookedUp(rows, r, ev, found, at)
  {
    FilledTaken(rows, id, r, ev.tx);
    hide PaymentTaken, PaidUnderTerms;
  }

  lemma HookRowKeyed(rows: Rows, id: Id)
    requires WellFormedTable(rows) && id in rows
    ensures rows[id].id == id
  {
  }

  lemma NoTurn(world: World, s: State, e: Event)
    requires e.ActivationLookup? && e.turn !in s.turns
    ensures Step(world, s, e) == s
  {
  }

  /** A failed settlement makes a pending watch unknown, still open to reconciliation, and nothing else. */
  lemma PaymentFailed(world: World, s: State, id: Id)
    requires WellFormedTable(s.rows)
    ensures Step(world, s, SettlementFailed(id))
         == s.(rows := if id in s.rows && s.rows[id].state.SettlementPending?
                       then s.rows[id := s.rows[id].(state := SettlementUnknown, terminal := false)] else s.rows)
  {
    hide Apply, WellFormedTable;
    UpdateAdmitted(world.cfg, s.rows, MarkUnknown(id));
    assert id in s.rows ==> s.rows[id := s.rows[id]] == s.rows;
  }
}
