/**
 Whole polling turns on the interleaving machine. A turn that nothing interrupts does to its watch exactly what
 `Served` says in terms of rounds, blocks and pages; and turns that find the chain past the deadline and a covering
 answer decide the watch: matched when a payment is there, expired when the scan has reached the closing round.
 */
module PollingService {
  import opened Common
  import opened Watches
  import opened WatchLaws
  import opened WatchStore
  import opened ScanQueries
  import opened ScanLaws
  import opened Payments
  import opened Chain
  import opened Lifecycle
  import opened RowSoundness
  import opened LifecycleSafety
  import opened LifecycleStatements
  import opened PollingSafety
  import opened LifecycleTheorems
  import opened PollingTurns

  // ---- What one turn achieves --------------------------------------------------------------

  /** The deadline's block has been scanned already. */
  predicate Closes(w: Row)
    requires w.scanAfter.Some?
  {
    w.closing.Some? && w.closing.value <= w.scanAfter.value
  }

  /** The watch has something to scan, and the window's next page is what the Indexer answers. */
  ghost predicate WellAnswered(world: World, s: State, w: Row, v: Visit)
    requires w.scanAfter.Some? && w.expiresAt.Some?
  {
    var after := Charged(world, w, v);
    var reach := Reach(world, s, after, v);
    !Closes(after) && reach > w.scanAfter.value ==>
      && WindowQuery(world, w, reach).Ok?
      && Answers(world, w, WindowQuery(world, w, reach).value, PageWanted(s, after), v.raw)
  }

  /** The watch after the last answer of one turn that nothing disturbs. */
  ghost function Worked(world: World, s: State, w: Row, v: Visit): Row
    requires w.scanAfter.Some? && w.expiresAt.Some? && WellAnswered(world, s, w, v)
  {
    var after := Charged(world, w, v);
    var reach := Reach(world, s, after, v);
    if Closes(after) then after.(state := Expired)
    else if reach <= w.scanAfter.value then after
    else
      var pages, k := world.pages(WindowQuery(world, w, reach).value), PageWanted(s, after);
      var found := FirstPayment(pages[k], w);
      if found.Some? then after.(state := Matched, matched := found)
      else if k + 1 < |pages| then after
      else after.(scanAfter := Some(reach), state := if after.closing == Some(reach) then Expired else Active)
  }

  /** The turn gets a page: something is left to scan. */
  ghost predicate GetsPage(world: World, s: State, w: Row, v: Visit)
    requires w.scanAfter.Some? && w.expiresAt.Some?
  {
    !Closes(Charged(world, w, v)) && Reach(world, s, Charged(world, w, v), v) > w.scanAfter.value
  }

  /** Without any failure on record, if it is still watched. */
  function Relieved(r: Row): Row {
    if r.state.Active? then r.(failure := None, failureCount := 0, retryAt := None) else r
  }

  /** The watch after the sweep: a turn that got a page also clears the failures before it. */
  ghost function Served(world: World, s: State, w: Row, v: Visit): Row
    requires w.scanAfter.Some? && w.expiresAt.Some? && WellAnswered(world, s, w, v)
  {
    if GetsPage(world, s, w, v) then Relieved(Worked(world, s, w, v)) else Worked(world, s, w, v)
  }

  /** One sweep over this watch that nothing disturbs. */
  ghost function Sweep(world: World, s: State, w: Row, v: Visit): State
    requires w.scanAfter.Some? && w.expiresAt.Some?
  {
    Lifecycle.Run(world, s, TurnEvents(w, v) + Aftermath(w, GetsPage(world, s, w, v)))
  }

  // ---- Single events -----------------------------------------------------------------------

  lemma Prunes(world: World, s: State, id: Id)
    ensures Step(world, s, PruneScan(id)) == DropStaleScan(s, id, RowOf(s.rows, id))
  {
    hide DropStaleScan;
  }

  lemma Lists(world: World, s: State, id: Id)
    requires id in s.rows
    ensures Step(world, s, List) == s.(listed := s.listed + s.rows.Values) && s.rows[id] in s.listed + s.rows.Values
  {
  }

  lemma Begins(world: World, s: State, t: nat, sweep: nat, w: Row, at: int, now: int)
    requires t !in s.turns && w in s.listed
    ensures Step(world, s, BeginPoll(t, sweep, w, at, now)) == StepBeginPoll(world, s, t, sweep, w, at, now)
  {
    hide StepBeginPoll;
  }

  /** An event for a turn that is over changes nothing. */
  lemma Over(world: World, s: State, e: Event)
    requires e.TipArrives? || e.BlockArrives? || e.SweepTipArrives? || e.PageArrives?
    requires e.turn !in s.turns
    ensures Step(world, s, e) == s
  {
  }

  lemma TipComes(world: World, s: State, t: nat, round: nat)
    requires t in s.turns
    ensures Step(world, s, TipArrives(t, round))
         == if s.turns[t].pc.AwaitTip? then Ask(s, t, s.turns[t], AwaitBlock(s.turns[t].pc.w, round), MAX_POLLING_REQUESTS) else s
  {
    hide Ask;
  }

  lemma BlockComes(world: World, s: State, t: nat)
    requires t in s.turns
    ensures Step(world, s, BlockArrives(t)) == if s.turns[t].pc.AwaitBlock? then StepBlock(world, s, t, s.turns[t]) else s
  {
    hide StepBlock;
  }

  lemma SweepTipComes(world: World, s: State, t: nat, round: nat, session: nat)
    requires t in s.turns
    ensures Step(world, s, SweepTipArrives(t, round, session))
         == if s.turns[t].pc.AwaitSweepTip? && session !in s.scans then StepSweepTip(world, s, t, s.turns[t], round, session) else s
  {
    hide StepSweepTip;
  }

  lemma PageComes(world: World, s: State, t: nat, source: Source)
    requires t in s.turns
    ensures Step(world, s, PageArrives(t, source)) == if s.turns[t].pc.AwaitPage? then StepPage(world, s, t, s.turns[t], source) else s
  {
    hide StepPage;
  }

  lemma RunFour(world: World, s: State, es: seq<Event>, i: nat)
    requires i + 4 <= |es|
    ensures Lifecycle.Run(world, s, es[i..])
         == Lifecycle.Run(world, Step(world, Step(world, Step(world, Step(world, s, es[i]), es[i + 1]), es[i + 2]), es[i + 3]), es[i + 4..])
  {
    hide Step, Lifecycle.Run;
    Unfold(world, s, es, i);
    Unfold(world, Step(world, s, es[i]), es, i + 1);
    Unfold(world, Step(world, Step(world, s, es[i]), es[i + 1]), es, i + 2);
    Unfold(world, Step(world, Step(world, Step(world, s, es[i]), es[i + 1]), es[i + 2]), es, i + 3);
  }

  lemma RunEight(world: World, s: State, es: seq<Event>)
    requires |es| == 8
    ensures Lifecycle.Run(world, s, es)
         == Step(world, Step(world, Step(world, Step(world, Step(world, Step(world, Step(world, Step(world, s, es[0]), es[1]), es[2]), es[3]), es[4]), es[5]), es[6]), es[7])
  {
    hide Step;
    RunFour(world, s, es, 0);
    RunFour(world, Step(world, Step(world, Step(world, Step(world, s, es[0]), es[1]), es[2]), es[3]), es, 4);
    assert es[0..] == es && es[8..] == [];
  }

  lemma Unfold(world: World, s: State, es: seq<Event>, i: nat)
    requires i < |es|
    ensures Lifecycle.Run(world, s, es[i..]) == Lifecycle.Run(world, Step(world, s, es[i]), es[i + 1..])
  {
    hide Step;
    assert es[i..][1..] == es[i + 1..];
  }

  // ---- Phases ------------------------------------------------------------------------------

  /** The sweep has pruned and listed: the watch's session is still there exactly if it fits. */
  lemma SweepStarts(world: World, s: State, w: Row) returns (s2: State)
    requires w.id in s.rows && s.rows[w.id] == w && w.state.Active? && Pollable(w)
    ensures s2 == Step(world, Step(world, s, PruneScan(w.id)), List)
    ensures s2 == s.(scanOf := s2.scanOf, listed := s2.listed) && w in s2.listed
    ensures (w.id in s2.scanOf <==> HasSession(s, w)) && (HasSession(s, w) ==> s2.scanOf[w.id] == s.scanOf[w.id])
  {
    hide Step, DropStaleScan, HasSession;
    Prunes(world, s, w.id);
    Pruned(s, w);
    var s1 := Step(world, s, PruneScan(w.id));
    Lists(world, s1, w.id);
    s2 := Step(world, s1, List);
  }

  /** What the checkpoint leaves: a unit charged, the closing round of this turn, and the turn on its way. */
  ghost predicate Settled(world: World, s: State, w: Row, v: Visit, before: State, later: State, w2: Row, requests: nat)
    requires Pollable(w)
  {
    var after := Charged(world, w, v);
    && before.rows == s.rows[w.id := after] && before.scans == s.scans && before.scanOf == s.scanOf
    && w2 == after.(used := w2.used) && Proceeded(world, before, later, v.turn, w2, requests) && requests <= 2
  }

  lemma WithoutCheckpoint(world: World, s: State, w: Row, v: Visit) returns (before: State)
    requires WellFormedTable(s.rows) && w.id in s.rows && s.rows[w.id] == w && Servable(w, v.at)
    requires v.turn !in s.turns && w in s.listed && !(w.closing.None? && w.expiresAt.value <= v.now)
    ensures Settled(world, s, w, v, before, Step(world, s, BeginPoll(v.turn, v.sweep, w, v.at, v.now)), w, 0)
  {
    hide Step, StepBeginPoll, WellFormedTable, Proceeded;
    Begins(world, s, v.turn, v.sweep, w, v.at, v.now);
    PollProceeds(world, s, v.turn, v.sweep, w, v.at, v.now);
    before := s.(rows := s.rows[w.id := w.(used := w.used + 1)]);
  }

  /** The turn is past its checkpoint: a tip or a block would change nothing. */
  lemma NoCheckpoint(world: World, before: State, later: State, t: nat, w: Row, requests: nat, round: nat)
    requires Pollable(w) && Proceeded(world, before, later, t, w, requests)
    ensures Step(world, later, TipArrives(t, round)) == later && Step(world, later, BlockArrives(t)) == later
  {
    hide Step;
    if t in later.turns {
      TipComes(world, later, t, round);
      BlockComes(world, later, t);
      hide HasSession, WindowQuery, Closes;
    } else {
      Over(world, later, TipArrives(t, round));
      Over(world, later, BlockArrives(t));
    }
  }

  lemma AtTheTip(world: World, s: State, w: Row, v: Visit) returns (s4: State)
    requires WellFormedTable(s.rows) && w.id in s.rows && s.rows[w.id] == w && Servable(w, v.at)
    requires v.turn !in s.turns && w in s.listed && w.closing.None? && w.expiresAt.value <= v.now
    ensures s4 == Step(world, Step(world, s, BeginPoll(v.turn, v.sweep, w, v.at, v.now)), TipArrives(v.turn, v.checkpoint))
    ensures s4.rows == s.rows[w.id := w.(used := w.used + 1)] && s4.scans == s.scans && s4.scanOf == s.scanOf
    ensures At(s4, v.turn, AwaitBlock(w, v.checkpoint), 2) && WellFormedTable(s4.rows)
  {
    hide Step, StepBeginPoll, WellFormedTable, Ask;
    var s3 := Step(world, s, BeginPoll(v.turn, v.sweep, w, v.at, v.now));
    StepEvolves(world, s, BeginPoll(v.turn, v.sweep, w, v.at, v.now));
    Begins(world, s, v.turn, v.sweep, w, v.at, v.now);
    PollAwaitsTip(world, s, v.turn, v.sweep, w, v.at, v.now);
    TipComes(world, s3, v.turn, v.checkpoint);
    Asked(s3, v.turn, s3.turns[v.turn], AwaitBlock(w, v.checkpoint));
    s4 := Step(world, s3, TipArrives(v.turn, v.checkpoint));
  }

  lemma WithCheckpoint(world: World, s: State, w: Row, v: Visit) returns (before: State, w2: Row)
    requires WellFormedTable(s.rows) && w.id in s.rows && s.rows[w.id] == w && Servable(w, v.at)
    requires v.turn !in s.turns && w in s.listed && w.closing.None? && w.expiresAt.value <= v.now
    ensures var s3 := Step(world, s, BeginPoll(v.turn, v.sweep, w, v.at, v.now));
            Settled(world, s, w, v, before, Step(world, Step(world, s3, TipArrives(v.turn, v.checkpoint)), BlockArrives(v.turn)), w2, 2)
  {
    hide Step, StepBlock, WellFormedTable, Proceeded;
    var s4 := AtTheTip(world, s, w, v);
    BlockComes(world, s4, v.turn);
    var turn := s4.turns[v.turn];
    if w.expiresAt.value <= world.time(v.checkpoint) * 1000 {
      BlockFixes(world, s4, v.turn, turn, w, v.checkpoint);
      w2 := s4.rows[w.id].(closing := Some(v.checkpoint));
      before := s4.(rows := s4.rows[w.id := w2]);
      assert before.rows == s.rows[w.id := w2];
    } else {
      BlockTooEarly(world, s4, v.turn, turn, w, v.checkpoint);
      before, w2 := s4, w;
    }
  }

  /** Everything up to the tip, whichever way the checkpoint went. */
  lemma CheckpointSettled(world: World, s: State, w: Row, v: Visit) returns (before: State, s5: State, w2: Row, requests: nat)
    requires WellFormedTable(s.rows) && w.id in s.rows && s.rows[w.id] == w && Servable(w, v.at)
    requires v.turn !in s.turns && w in s.listed
    ensures var s3 := Step(world, s, BeginPoll(v.turn, v.sweep, w, v.at, v.now));
            s5 == Step(world, Step(world, s3, TipArrives(v.turn, v.checkpoint)), BlockArrives(v.turn))
    ensures Settled(world, s, w, v, before, s5, w2, requests)
  {
    hide Step, WellFormedTable, Proceeded;
    var s3 := Step(world, s, BeginPoll(v.turn, v.sweep, w, v.at, v.now));
    s5 := Step(world, Step(world, s3, TipArrives(v.turn, v.checkpoint)), BlockArrives(v.turn));
    if w.closing.None? && w.expiresAt.value <= v.now {
      before, w2 := WithCheckpoint(world, s, w, v);
      requests := 2;
    } else {
      before := WithoutCheckpoint(world, s, w, v);
      w2, requests := w, 0;
      NoCheckpoint(world, before, s3, v.turn, w, 0, v.checkpoint);
    }
  }

  lemma SameFit(s: State, other: State, a: Row, b: Row)
    requires a.scanAfter.Some? && b.id == a.id && b.scanAfter == a.scanAfter && b.closing == a.closing
    requires other.scans == s.scans && other.scanOf == s.scanOf
    ensures HasSession(s, a) == HasSession(other, b)
  {
  }

  /** A session of the invariant stands before the page that it has not consumed. */
  lemma SessionStands(world: World, s: State, w: Row)
    requires Honest(world) && Inv(world, s) && w.id in s.rows && s.rows[w.id].spec == w.spec && w.scanAfter.Some? && HasSession(s, w)
    requires WindowQuery(world, w, s.scans[s.scanOf[w.id]].maxRound).Ok?
    ensures var scan := s.scans[s.scanOf[w.id]];
            OnPage(world, s, w, s.scanOf[w.id], WindowQuery(world, w, scan.maxRound).value, scan.consumed)
  {
    hide TableSound, ListedSound, ProofsSound, ProofsOwned, TurnsSound, PagesSound, Honest, BuildQuery;
    var session := s.scanOf[w.id];
    assert ScanSound(world, s.rows, s.scans[session]);
    QueryWindow(world, w, WindowQuery(world, w, s.scans[session].maxRound).value, s.scans[session]);
  }

  /** The turn waits for page k of the window, and its session stands before that page. */
  ghost predicate BeforePage(world: World, s: State, t: nat, w: Row, session: nat, q: Query, k: nat) {
    && OnPage(world, s, w, session, q, k)
    && exists requests, held :: At(s, t, AwaitPage(w, session, Key(q, TokenSent(PageToken(world, q, k))), held), requests)
  }

  /** The closing round was reached: the watch has expired and the turn is over, whatever the tip. */
  lemma ClosedAlready(world: World, s: State, w: Row, v: Visit, before: State, s5: State, w2: Row, requests: nat)
    requires Pollable(w) && w.id in s.rows && Settled(world, s, w, v, before, s5, w2, requests) && Closes(Charged(world, w, v))
    ensures var s6 := Step(world, s5, SweepTipArrives(v.turn, v.tip, v.session));
            v.turn !in s6.turns && s6.rows == s.rows[w.id := Charged(world, w, v).(state := Expired)]
  {
    hide Step, HasSession, WindowQuery, HasPage, At;
    Over(world, s5, SweepTipArrives(v.turn, v.tip, v.session));
  }

  /** The turn that resumes its session waits for the session's next page. */
  lemma Resumed(world: World, s: State, w: Row, v: Visit, before: State, s5: State, w2: Row, requests: nat)
    requires Pollable(w) && Settled(world, s, w, v, before, s5, w2, requests) && !Closes(Charged(world, w, v)) && HasSession(s, Charged(world, w, v))
    ensures s5.rows == s.rows[w.id := Charged(world, w, v)] && s5.scans == s.scans && s5.scanOf == s.scanOf && HasPage(s5, v.turn)
    ensures w2.spec == w.spec && w2.scanAfter == w.scanAfter
    ensures var scan := s.scans[s.scanOf[w.id]];
            var q := WindowQuery(world, w, scan.maxRound);
            q.Ok? ==> exists held :: At(s5, v.turn, AwaitPage(w2, s.scanOf[w.id], Key(q.value, TokenSent(scan.next)), held), requests + 1)
  {
    SameFit(s, before, Charged(world, w, v), w2);
    hide HasSession, BuildQuery, At, HasPage, TokenSent;
  }

  lemma StillWaits(world: World, s: State, t: nat, tip: nat, session: nat)
    requires HasPage(s, t)
    ensures Step(world, s, SweepTipArrives(t, tip, session)) == s
  {
    hide Step;
    SweepTipComes(world, s, t, tip, session);
  }

  lemma StandsBefore(world: World, s: State, s5: State, t: nat, w: Row, w2: Row, session: nat, q: Query, k: nat, held: Option<Page>, requests: nat)
    requires Honest(world) && OnPage(world, s, w, session, q, k) && s5.scans == s.scans && w2.spec == w.spec && w2.scanAfter == w.scanAfter
    requires At(s5, t, AwaitPage(w2, session, Key(q, TokenSent(s.scans[session].next)), held), requests)
    ensures BeforePage(world, s5, t, w2, session, q, k)
  {
    hide Honest, BuildQuery, At, TokenSent, SeenTokens;
  }

  /** The session goes on: the tip is not asked for. */
  lemma OldWindow(world: World, s: State, w: Row, v: Visit, before: State, s5: State, w2: Row, requests: nat)
    requires Honest(world) && Inv(world, s) && Pollable(w) && w.id in s.rows && s.rows[w.id] == w
    requires Settled(world, s, w, v, before, s5, w2, requests)
    requires !Closes(Charged(world, w, v)) && HasSession(s, Charged(world, w, v))
    requires WindowQuery(world, w, Reach(world, s, Charged(world, w, v), v)).Ok?
    ensures Step(world, s5, SweepTipArrives(v.turn, v.tip, v.session)) == s5
    ensures var after := Charged(world, w, v);
            && s5.rows == s.rows[w.id := after] && s5.scans == s.scans && s5.scanOf == s.scanOf
            && BeforePage(world, s5, v.turn, w2, s.scanOf[w.id], WindowQuery(world, w, Reach(world, s, after, v)).value, PageWanted(s, after))
  {
    hide Step, Inv, Honest, HasPage, At, BuildQuery, Settled, BeforePage, OnPage, TokenSent, Continues, ClosingAfter, Closes;
    var after, session := Charged(world, w, v), s.scanOf[w.id];
    Resumed(world, s, w, v, before, s5, w2, requests);
    SessionStands(world, s, after);
    StillWaits(world, s5, v.turn, v.tip, v.session);
    var q := WindowQuery(world, w, s.scans[session].maxRound).value;
    var held :| At(s5, v.turn, AwaitPage(w2, session, Key(q, TokenSent(s.scans[session].next)), held), requests + 1);
    StandsBefore(world, s, s5, v.turn, after, w2, session, q, s.scans[session].consumed, held, requests + 1);
  }

  lemma PageTokenSent(world: World, q: Query, k: nat)
    requires Honest(world)
    ensures TokenSent(PageToken(world, q, k)) == PageToken(world, q, k)
  {
    SentTokenIsPageToken(world, q, k);
  }

  /** Without a session the turn waits for the tip. */
  lemma TipAwaited(world: World, s: State, w: Row, v: Visit, before: State, s5: State, w2: Row, requests: nat)
    requires Pollable(w) && w.state.Active? && w.id in s.rows && Settled(world, s, w, v, before, s5, w2, requests)
    requires !Closes(Charged(world, w, v)) && !HasSession(s, Charged(world, w, v))
    ensures s5.rows == s.rows[w.id := Charged(world, w, v)] && s5.scans == s.scans && w.id !in s5.scanOf
    ensures At(s5, v.turn, AwaitSweepTip(w2), requests + 1) && Current(s5, w2) && requests <= 2
    ensures w2.id == w.id && w2.spec == w.spec && w2.scanAfter == w.scanAfter && w2.closing == Charged(world, w, v).closing
  {
    SameFit(s, before, Charged(world, w, v), w2);
    hide HasSession, BuildQuery, At, HasPage, TokenSent;
  }

  lemma TipAnswered(world: World, s: State, t: nat, w: Row, tip: nat, session: nat, requests: nat)
    requires At(s, t, AwaitSweepTip(w), requests) && session !in s.scans
    ensures Step(world, s, SweepTipArrives(t, tip, session)) == StepSweepTip(world, s, t, s.turns[t], tip, session)
  {
    hide Step, StepSweepTip;
    SweepTipComes(world, s, t, tip, session);
  }

  /** The tip is not past the cursor: the turn ends without scanning. */
  lemma NothingNew(world: World, s: State, w: Row, v: Visit, before: State, s5: State, w2: Row, requests: nat)
    requires Pollable(w) && w.state.Active? && w.id in s.rows && Settled(world, s, w, v, before, s5, w2, requests) && v.session !in s.scans
    requires !Closes(Charged(world, w, v)) && !HasSession(s, Charged(world, w, v))
    requires NewReach(world, Charged(world, w, v), v.tip) <= w.scanAfter.value
    ensures var s6 := Step(world, s5, SweepTipArrives(v.turn, v.tip, v.session));
            v.turn !in s6.turns && s6.rows == s.rows[w.id := Charged(world, w, v)] && w.id !in s6.scanOf
  {
    hide Step, HasSession, Settled, Current, ClosingAfter, StepSweepTip;
    TipAwaited(world, s, w, v, before, s5, w2, requests);
    TipAnswered(world, s5, v.turn, w2, v.tip, v.session, requests + 1);
    NothingToScan(world, s5, v.turn, s5.turns[v.turn], w2, v.tip, v.session);
  }

  /** A new window opens, and the turn stands before its first page. */
  lemma NewWindow(world: World, s: State, w: Row, v: Visit, before: State, s5: State, w2: Row, requests: nat)
    requires Pollable(w) && w.state.Active? && w.id in s.rows && Settled(world, s, w, v, before, s5, w2, requests) && v.session !in s.scans
    requires !Closes(Charged(world, w, v)) && !HasSession(s, Charged(world, w, v))
    requires var reach := NewReach(world, Charged(world, w, v), v.tip);
             reach > w.scanAfter.value && WindowQuery(world, w, reach).Ok? && |world.pages(WindowQuery(world, w, reach).value)| > 0
    ensures var s6, reach := Step(world, s5, SweepTipArrives(v.turn, v.tip, v.session)), NewReach(world, Charged(world, w, v), v.tip);
            && s6.rows == s.rows[w.id := Charged(world, w, v)] && w.id in s6.scanOf && s6.scanOf[w.id] == v.session
            && BeforePage(world, s6, v.turn, w2, v.session, WindowQuery(world, w, reach).value, 0)
  {
    hide Step, HasSession, Settled, ClosingAfter, StepSweepTip, BuildQuery, BeforePage;
    TipAwaited(world, s, w, v, before, s5, w2, requests);
    TipAnswered(world, s5, v.turn, w2, v.tip, v.session, requests + 1);
    WindowOpens(world, s5, v.turn, s5.turns[v.turn], w2, v.tip, v.session);
    var reach := NewReach(world, Charged(world, w, v), v.tip);
    assert NewReach(world, w2, v.tip) == reach;
    FirstPageStands(world, Step(world, s5, SweepTipArrives(v.turn, v.tip, v.session)), v.turn, w2, v.session, reach, requests + 2);
  }

  lemma FirstPageStands(world: World, s: State, t: nat, w: Row, session: nat, reach: nat, requests: nat)
    requires w.scanAfter.Some? && WindowQuery(world, w, reach).Ok? && |world.pages(WindowQuery(world, w, reach).value)| > 0
    requires session in s.scans && s.scans[session] == ScanSession(w.id, w.scanAfter.value + 1, reach, None, {}, 0)
    requires exists held :: At(s, t, AwaitPage(w, session, Key(WindowQuery(world, w, reach).value, None), held), requests)
    ensures BeforePage(world, s, t, w, session, WindowQuery(world, w, reach).value, 0)
  {
    var q := WindowQuery(world, w, reach).value;
    QueryWindow(world, w, q, s.scans[session]);
    hide At, BuildQuery;
    assert SeenTokens(world, q, 0) == {};
    assert TokenSent(PageToken(world, q, 0)) == None;
    var held :| At(s, t, AwaitPage(w, session, Key(q, None), held), requests);
    assert At(s, t, AwaitPage(w, session, Key(q, TokenSent(PageToken(world, q, 0))), held), requests);
  }

  // ---- The page ----------------------------------------------------------------------------

  lemma {:induction false} SamePayments(raws: seq<RawTx>, a: Row, b: Row)
    requires a.spec == b.spec && a.activationRound == b.activationRound && a.expiresAt == b.expiresAt
    ensures FirstPayment(raws, a) == FirstPayment(raws, b)
  {
    if raws != [] {
      SamePayments(raws[1..], a, b);
      hide IsPayment;
    }
  }

  /** What the page does to the row, and to the session. */
  ghost function PageServed(world: World, r: Row, q: Query, k: nat): Row
    requires k < |world.pages(q)|
  {
    var found := FirstPayment(world.pages(q)[k], r);
    if found.Some? then r.(state := Matched, matched := found)
    else if k + 1 < |world.pages(q)| then r
    else r.(scanAfter := Some(q.maxRound), state := if r.closing == Some(q.maxRound) then Expired else Active)
  }

  /** The answer arrives for a turn that stands before its page. */
  lemma PageArrivesFor(world: World, s: State, w: Row, r: Row, v: Visit, session: nat, q: Query, k: nat)
    requires Honest(world) && WellFormedTable(s.rows) && Current(s, w) && s.rows[w.id] == r
    requires BeforePage(world, s, v.turn, w, session, q, k) && Answers(world, w, q, k, v.raw) && w.scanAfter.value < q.maxRound
    ensures var later := Step(world, s, PageArrives(v.turn, Fetched(v.raw, v.kept)));
            && v.turn !in later.turns && later.rows == s.rows[w.id := PageServed(world, r, q, k)]
            && (if FirstPayment(world.pages(q)[k], r).None? && k + 1 < |world.pages(q)|
                then && later.scanOf == s.scanOf && session in later.scans && later.scans[session].consumed == k + 1
                     && later.scans[session].minRound == s.scans[session].minRound && later.scans[session].maxRound == q.maxRound
                else w.id !in later.scanOf)
  {
    var t := v.turn;
    hide Step, StepPage, Honest, Answers, WellFormedTable, FirstPayment, WindowQuery, SeenTokens, PageToken, TokenSent;
    var requests, held :| At(s, t, AwaitPage(w, session, Key(q, TokenSent(PageToken(world, q, k))), held), requests);
    PageComes(world, s, t, Fetched(v.raw, v.kept));
    SamePayments(world.pages(q)[k], w, r);
    if FirstPayment(world.pages(q)[k], w).Some? {
      PageMatches(world, s, t, s.turns[t], w, session, q, k, held, v.raw, v.kept);
    } else if k + 1 < |world.pages(q)| {
      PageContinues(world, s, t, s.turns[t], w, session, q, k, held, v.raw, v.kept);
      assert s.rows[w.id := r] == s.rows;
    } else {
      PageCompletes(world, s, t, s.turns[t], w, session, q, k, held, v.raw, v.kept);
    }
  }

  // ---- The whole turn ----------------------------------------------------------------------

  /** The turn ends between two pages of its window. */
  ghost predicate Midway(world: World, s: State, w: Row, v: Visit)
    requires w.scanAfter.Some? && w.expiresAt.Some? && WellAnswered(world, s, w, v)
  {
    var after := Charged(world, w, v);
    var reach := Reach(world, s, after, v);
    && !Closes(after) && reach > w.scanAfter.value
    && var pages, k := world.pages(WindowQuery(world, w, reach).value), PageWanted(s, after);
    FirstPayment(pages[k], w).None? && k + 1 < |pages|
  }

  /** A session of the watch that stands before this page of a window with this end. */
  ghost predicate SessionAt(s: State, w: Row, reach: nat, k: nat)
    requires w.scanAfter.Some?
  {
    HasSession(s, w) && s.scans[s.scanOf[w.id]].maxRound == reach && s.scans[s.scanOf[w.id]].consumed == k
  }

  /** The machine after the turn's last answer. */
  ghost predicate Done(world: World, s: State, w: Row, v: Visit, later: State)
    requires w.scanAfter.Some? && w.expiresAt.Some? && WellAnswered(world, s, w, v)
  {
    var after := Charged(world, w, v);
    && v.turn !in later.turns && later.rows == s.rows[w.id := Worked(world, s, w, v)]
    && (Midway(world, s, w, v) ==> SessionAt(later, after, Reach(world, s, after, v), PageWanted(s, after) + 1))
    && (!Midway(world, s, w, v) ==> w.id !in later.scanOf || Closes(after))
  }

  lemma DoneWhenClosed(world: World, s: State, w: Row, v: Visit, before: State, s5: State, w2: Row, requests: nat)
    requires Pollable(w) && w.id in s.rows && WellAnswered(world, s, w, v) && Settled(world, s, w, v, before, s5, w2, requests)
    requires Closes(Charged(world, w, v))
    ensures var s6 := Step(world, s5, SweepTipArrives(v.turn, v.tip, v.session));
            Done(world, s, w, v, Step(world, s6, PageArrives(v.turn, Fetched(v.raw, v.kept))))
  {
    hide Step, Settled, Charged, Reach, WindowQuery, FirstPayment, SessionAt, PageWanted;
    ClosedAlready(world, s, w, v, before, s5, w2, requests);
    var s6 := Step(world, s5, SweepTipArrives(v.turn, v.tip, v.session));
    Over(world, s6, PageArrives(v.turn, Fetched(v.raw, v.kept)));
  }

  lemma DoneWhenNothingNew(world: World, s: State, w: Row, v: Visit, before: State, s5: State, w2: Row, requests: nat)
    requires Pollable(w) && w.state.Active? && w.id in s.rows && WellAnswered(world, s, w, v) && Settled(world, s, w, v, before, s5, w2, requests)
    requires v.session !in s.scans && !Closes(Charged(world, w, v)) && !HasSession(s, Charged(world, w, v))
    requires Reach(world, s, Charged(world, w, v), v) <= w.scanAfter.value
    ensures var s6 := Step(world, s5, SweepTipArrives(v.turn, v.tip, v.session));
            Done(world, s, w, v, Step(world, s6, PageArrives(v.turn, Fetched(v.raw, v.kept))))
  {
    hide Step, Settled, ClosingAfter, WindowQuery, FirstPayment, SessionAt, PageWanted, HasSession, NewReach;
    NothingNew(world, s, w, v, before, s5, w2, requests);
    var s6 := Step(world, s5, SweepTipArrives(v.turn, v.tip, v.session));
    Over(world, s6, PageArrives(v.turn, Fetched(v.raw, v.kept)));
  }

  /** From before the page to the end of the turn. */
  lemma DoneAfterPage(world: World, s: State, w: Row, v: Visit, s6: State, w2: Row, session: nat)
    requires Honest(world) && Pollable(w) && w.state.Active? && WellAnswered(world, s, w, v) && !Closes(Charged(world, w, v))
    requires var after := Charged(world, w, v);
             var reach := Reach(world, s, after, v);
             && reach > w.scanAfter.value && (after.closing.Some? ==> reach <= after.closing.value)
             && WellFormedTable(s6.rows) && s6.rows == s.rows[w.id := after] && w2 == after.(used := w2.used)
             && w.id in s6.scanOf && s6.scanOf[w.id] == session
             && BeforePage(world, s6, v.turn, w2, session, WindowQuery(world, w, reach).value, PageWanted(s, after))
    ensures Done(world, s, w, v, Step(world, s6, PageArrives(v.turn, Fetched(v.raw, v.kept))))
  {
    hide Step, Honest, ParsePage, WellFormedTable, FirstPayment, BuildQuery, SeenTokens, Reach, PageWanted, ClosingAfter, At, TokenSent;
    var after := Charged(world, w, v);
    var reach, k := Reach(world, s, after, v), PageWanted(s, after);
    var q := WindowQuery(world, w, reach).value;
    WindowEnds(world, w, reach);
    SamePayments(world.pages(q)[k], w, after);
    PageArrivesFor(world, s6, w2, after, v, session, q, k);
  }

  lemma WindowEnds(world: World, w: Row, reach: nat)
    requires w.scanAfter.Some? && WindowQuery(world, w, reach).Ok?
    ensures var q := WindowQuery(world, w, reach).value; q.maxRound == reach && q.minRound == w.scanAfter.value + 1
  {
  }

  lemma ReachWithinClosing(world: World, s: State, w: Row, v: Visit)
    requires w.scanAfter.Some? && !Closes(w)
    ensures w.closing.Some? ==> Reach(world, s, w, v) <= w.closing.value
  {
  }

  /** From the listing to the turn's last answer. */
  lemma TurnDone(world: World, s: State, w: Row, v: Visit) returns (s7: State)
    requires Honest(world) && Inv(world, s) && w.id in s.rows && s.rows[w.id] == w && Servable(w, v.at) && w in s.listed
    requires v.turn !in s.turns && v.session !in s.scans && WellAnswered(world, s, w, v)
    ensures var s3 := Step(world, s, BeginPoll(v.turn, v.sweep, w, v.at, v.now));
            var s5 := Step(world, Step(world, s3, TipArrives(v.turn, v.checkpoint)), BlockArrives(v.turn));
            s7 == Step(world, Step(world, s5, SweepTipArrives(v.turn, v.tip, v.session)), PageArrives(v.turn, Fetched(v.raw, v.kept)))
    ensures Done(world, s, w, v, s7) && WellFormedTable(s7.rows)
  {
    hide Step, Honest, Inv, WellFormedTable, Settled, Done, BuildQuery, ParsePage, ClosingAfter, HasSession, BeforePage, TableEvolves;
    var after := Charged(world, w, v);
    TableHolds(world, s);
    var before, s5, w2, requests := CheckpointSettled(world, s, w, v);
    var s6 := Step(world, s5, SweepTipArrives(v.turn, v.tip, v.session));
    s7 := Step(world, s6, PageArrives(v.turn, Fetched(v.raw, v.kept)));
    TableSteps(world, s, v, w);
    if Closes(after) {
      DoneWhenClosed(world, s, w, v, before, s5, w2, requests);
    } else if HasSession(s, after) {
      SettledRow(world, s, w, v, before, s5, w2, requests);
      SessionPastCursor(world, s, after);
      ReachWithinClosing(world, s, after, v);
      OldWindow(world, s, w, v, before, s5, w2, requests);
      DoneAfterPage(world, s, w, v, s6, w2, s.scanOf[w.id]);
    } else if Reach(world, s, after, v) <= w.scanAfter.value {
      DoneWhenNothingNew(world, s, w, v, before, s5, w2, requests);
    } else {
      SettledRow(world, s, w, v, before, s5, w2, requests);
      ReachWithinClosing(world, s, after, v);
      NewWindow(world, s, w, v, before, s5, w2, requests);
      DoneAfterPage(world, s, w, v, s6, w2, v.session);
    }
  }

  lemma SettledRow(world: World, s: State, w: Row, v: Visit, before: State, s5: State, w2: Row, requests: nat)
    requires Pollable(w) && Settled(world, s, w, v, before, s5, w2, requests)
    ensures w2 == Charged(world, w, v).(used := w2.used)
  {
    hide Proceeded, ClosingAfter;
  }

  lemma SessionPastCursor(world: World, s: State, w: Row)
    requires Inv(world, s) && w.scanAfter.Some? && HasSession(s, w)
    ensures w.id in s.scanOf && s.scanOf[w.id] in s.scans && s.scans[s.scanOf[w.id]].maxRound > w.scanAfter.value
  {
    hide TableSound, ListedSound, ProofsSound, ProofsOwned, TurnsSound, PagesSound, ScansOwned, BuildQuery;
    assert ScanSound(world, s.rows, s.scans[s.scanOf[w.id]]);
  }

  lemma TableHolds(world: World, s: State)
    requires Inv(world, s)
    ensures WellFormedTable(s.rows)
  {
    hide ListedSound, ScansSound, ScansOwned, ProofsSound, ProofsOwned, PagesSound, TurnsSound, RowSound;
  }

  lemma TableSteps(world: World, s: State, v: Visit, w: Row)
    requires WellFormedTable(s.rows)
    ensures var s3 := Step(world, s, BeginPoll(v.turn, v.sweep, w, v.at, v.now));
            var s5 := Step(world, Step(world, s3, TipArrives(v.turn, v.checkpoint)), BlockArrives(v.turn));
            var s6 := Step(world, s5, SweepTipArrives(v.turn, v.tip, v.session));
            WellFormedTable(s6.rows) && WellFormedTable(Step(world, s6, PageArrives(v.turn, Fetched(v.raw, v.kept))).rows)
  {
    hide Step, WellFormedTable, TableEvolves;
    var e3 := BeginPoll(v.turn, v.sweep, w, v.at, v.now);
    var s3 := Step(world, s, e3);
    var s4 := Step(world, s3, TipArrives(v.turn, v.checkpoint));
    var s5 := Step(world, s4, BlockArrives(v.turn));
    var s6 := Step(world, s5, SweepTipArrives(v.turn, v.tip, v.session));
    StepEvolves(world, s, e3);
    StepEvolves(world, s3, TipArrives(v.turn, v.checkpoint));
    StepEvolves(world, s4, BlockArrives(v.turn));
    StepEvolves(world, s5, SweepTipArrives(v.turn, v.tip, v.session));
    StepEvolves(world, s6, PageArrives(v.turn, Fetched(v.raw, v.kept)));
  }

  /** Pruning and listing change nothing about what the turn will find. */
  lemma SweptSame(world: World, s: State, s2: State, w: Row, v: Visit)
    requires w.scanAfter.Some? && w.expiresAt.Some? && s2 == s.(scanOf := s2.scanOf, listed := s2.listed)
    requires (w.id in s2.scanOf <==> HasSession(s, w)) && (HasSession(s, w) ==> s2.scanOf[w.id] == s.scanOf[w.id])
    ensures var after := Charged(world, w, v);
            && HasSession(s2, after) == HasSession(s, after) && PageWanted(s2, after) == PageWanted(s, after)
            && Reach(world, s2, after, v) == Reach(world, s, after, v)
  {
    var after := Charged(world, w, v);
    assert HasSession(s, after) ==> HasSession(s, w);
  }

  lemma SameVerdict(world: World, s: State, s2: State, w: Row, v: Visit)
    requires w.scanAfter.Some? && w.expiresAt.Some? && WellAnswered(world, s, w, v)
    requires var after := Charged(world, w, v); PageWanted(s2, after) == PageWanted(s, after) && Reach(world, s2, after, v) == Reach(world, s, after, v)
    ensures WellAnswered(world, s2, w, v) && Worked(world, s2, w, v) == Worked(world, s, w, v)
    ensures Midway(world, s2, w, v) == Midway(world, s, w, v)
  {
    hide Reach, PageWanted, ClosingAfter, WindowQuery, FirstPayment, ParsePage;
  }

  lemma Relieves(world: World, s: State, w: Row, r: Row)
    requires WellFormedTable(s.rows) && w.id in s.rows && s.rows[w.id] == r
    ensures Step(world, s, ClearPollingFailure(w.id)) == s.(rows := s.rows[w.id := Relieved(r)])
  {
    FailureCleared(world, s, w.id);
    hide Step, WellFormedTable;
    assert s.rows[w.id := r] == s.rows;
  }

  /** Clearing a failure leaves the session alone, and whether it fits. */
  lemma RelievedSession(s: State, w: Row, r: Row, reach: nat, k: nat)
    requires r.scanAfter.Some? && SessionAt(s, r, reach, k)
    ensures SessionAt(s.(rows := s.rows[w.id := Relieved(r)]), Relieved(r), reach, k)
  {
  }

  /** What the sweep finds after clearing: the row as served, and the session as the turn left it. */
  lemma SweepClears(world: World, s: State, w: Row, v: Visit, s7: State) returns (s8: State)
    requires w.id in s.rows && Pollable(w) && w.state.Active? && WellAnswered(world, s, w, v) && Done(world, s, w, v, s7) && WellFormedTable(s7.rows)
    ensures s8 == if GetsPage(world, s, w, v) then Step(world, s7, ClearPollingFailure(w.id)) else s7
    ensures v.turn !in s8.turns && s8.rows == s.rows[w.id := Served(world, s, w, v)] && s8.scanOf == s7.scanOf && s8.scans == s7.scans
    ensures Midway(world, s, w, v) ==> SessionAt(s8, Served(world, s, w, v), Reach(world, s, Charged(world, w, v), v), PageWanted(s, Charged(world, w, v)) + 1)
    ensures !Midway(world, s, w, v) ==> w.id !in s8.scanOf || Closes(Charged(world, w, v))
  {
    hide Step, Reach, PageWanted, ClosingAfter, WindowQuery, FirstPayment, Answers, WellFormedTable, HasSession;
    if GetsPage(world, s, w, v) {
      Relieves(world, s7, w, Worked(world, s, w, v));
      var after := Charged(world, w, v);
      if Midway(world, s, w, v) { RelievedSession(s7, w, after, Reach(world, s, after, v), PageWanted(s, after) + 1); }
      s8 := Step(world, s7, ClearPollingFailure(w.id));
    } else {
      s8 := s7;
    }
  }

  /** At the end the sweep prunes again: a session between pages is kept, anything else is gone. */
  lemma SweepEnds(world: World, s: State, w: Row, v: Visit, s8: State) returns (s9: State)
    requires w.id in s.rows && Pollable(w) && w.state.Active? && WellAnswered(world, s, w, v)
    requires s8.rows == s.rows[w.id := Served(world, s, w, v)]
    requires Midway(world, s, w, v) ==> SessionAt(s8, Served(world, s, w, v), Reach(world, s, Charged(world, w, v), v), PageWanted(s, Charged(world, w, v)) + 1)
    requires !Midway(world, s, w, v) ==> w.id !in s8.scanOf || Closes(Charged(world, w, v))
    ensures s9 == Step(world, s8, PruneScan(w.id)) && s9 == s8.(scanOf := s9.scanOf)
    ensures Midway(world, s, w, v) ==> SessionAt(s9, Served(world, s, w, v), Reach(world, s, Charged(world, w, v), v), PageWanted(s, Charged(world, w, v)) + 1)
    ensures !Midway(world, s, w, v) ==> w.id !in s9.scanOf
  {
    hide Step, Reach, PageWanted, ClosingAfter, WindowQuery, FirstPayment, Answers;
    Prunes(world, s8, w.id);
    s9 := Step(world, s8, PruneScan(w.id));
  }

  /** The sweep as a chain of steps. */
  lemma SweepSteps(world: World, s: State, w: Row, v: Visit)
    requires w.scanAfter.Some? && w.expiresAt.Some?
    ensures var s2 := Step(world, Step(world, s, PruneScan(w.id)), List);
            var s3 := Step(world, s2, BeginPoll(v.turn, v.sweep, w, v.at, v.now));
            var s5 := Step(world, Step(world, s3, TipArrives(v.turn, v.checkpoint)), BlockArrives(v.turn));
            var s7 := Step(world, Step(world, s5, SweepTipArrives(v.turn, v.tip, v.session)), PageArrives(v.turn, Fetched(v.raw, v.kept)));
            var s8 := if GetsPage(world, s, w, v) then Step(world, s7, ClearPollingFailure(w.id)) else s7;
            Sweep(world, s, w, v) == Step(world, s8, PruneScan(w.id))
  {
    hide Step, GetsPage, Lifecycle.Run;
    var es := TurnEvents(w, v) + [PruneScan(w.id)];
    if GetsPage(world, s, w, v) {
      var all := TurnEvents(w, v) + [ClearPollingFailure(w.id), PruneScan(w.id)];
      assert all == (TurnEvents(w, v) + [ClearPollingFailure(w.id)]) + [PruneScan(w.id)];
      RunSplits(world, s, TurnEvents(w, v) + [ClearPollingFailure(w.id)], [PruneScan(w.id)]);
      RunEight(world, s, TurnEvents(w, v) + [ClearPollingFailure(w.id)]);
      RunOne(world, Lifecycle.Run(world, s, TurnEvents(w, v) + [ClearPollingFailure(w.id)]), PruneScan(w.id));
    } else {
      RunEight(world, s, es);
    }
  }

  lemma RunOne(world: World, s: State, e: Event)
    ensures Lifecycle.Run(world, s, [e]) == Step(world, s, e)
  {
    hide Step;
    assert [e][1..] == [];
  }

  lemma SameReading(world: World, s: State, s2: State, w: Row, v: Visit)
    requires w.scanAfter.Some? && w.expiresAt.Some? && WellAnswered(world, s, w, v) && WellAnswered(world, s2, w, v)
    requires Reach(world, s2, Charged(world, w, v), v) == Reach(world, s, Charged(world, w, v), v)
    requires Worked(world, s2, w, v) == Worked(world, s, w, v)
    ensures GetsPage(world, s2, w, v) == GetsPage(world, s, w, v) && Served(world, s2, w, v) == Served(world, s, w, v)
  {
    hide Worked, Reach, WellAnswered;
  }

  /**
   One polling turn, left alone. It charges a unit; fixes the closing round if and only if the deadline has passed
   on the clock and the checkpoint block is at or past it; expires the watch if that round is covered already;
   otherwise asks for exactly one page, the next one of the window that starts after the cursor; and then matches
   the watch with the first transaction of the page whose fields pay for it, or moves to the next page, or moves the
   cursor to the window's end, where reaching the closing round expires the watch. A watch that is still active and
   got a page has no failure on record any more.
   */
  lemma TurnServes(world: World, s: State, w: Row, v: Visit)
    requires Honest(world) && Inv(world, s) && w.id in s.rows && s.rows[w.id] == w && Servable(w, v.at)
    requires v.turn !in s.turns && v.session !in s.scans && WellAnswered(world, s, w, v)
    ensures var later := Sweep(world, s, w, v);
            && Inv(world, later) && v.turn !in later.turns && later.rows == s.rows[w.id := Served(world, s, w, v)]
            && (Midway(world, s, w, v) ==> SessionAt(later, Served(world, s, w, v), Reach(world, s, Charged(world, w, v), v), PageWanted(s, Charged(world, w, v)) + 1))
            && (!Midway(world, s, w, v) ==> w.id !in later.scanOf)
  {
    hide Step, Honest, Inv, Served, Worked, Midway, WellAnswered, GetsPage, HasSession, ClosingAfter, Reach, PageWanted, SessionAt, Lifecycle.Run;
    RunStaysSound(world, s, TurnEvents(w, v) + Aftermath(w, GetsPage(world, s, w, v)));
    SweepSteps(world, s, w, v);
    var s2 := SweepStarts(world, s, w);
    StepKeeps(world, s, PruneScan(w.id));
    StepKeeps(world, Step(world, s, PruneScan(w.id)), List);
    SweptSame(world, s, s2, w, v);
    SameVerdict(world, s, s2, w, v);
    SameReading(world, s, s2, w, v);
    var s7 := TurnDone(world, s2, w, v);
    var s8 := SweepClears(world, s2, w, v, s7);
    var s9 := SweepEnds(world, s2, w, v, s8);
  }

  /** The turn reads the last page of a window that ends at the checkpoint, and no payment is on it. */
  ghost predicate LastPageEmpty(world: World, s: State, w: Row, v: Visit)
    requires w.scanAfter.Some? && w.expiresAt.Some?
  {
    var after, q := Charged(world, w, v), WindowQuery(world, w, v.checkpoint);
    && Reach(world, s, after, v) == v.checkpoint && q.Ok? && PageWanted(s, after) + 1 == |world.pages(q.value)|
    && FirstPayment(world.pages(q.value)[PageWanted(s, after)], w).None?
  }

  /**
   In particular: the deadline has passed on the clock and in the checkpoint block, the window reaches that block,
   and its last page holds no payment. Then this turn fixes the closing round and expires the watch.
   */
  lemma LastTurnExpires(world: World, s: State, w: Row, v: Visit)
    requires Honest(world) && Inv(world, s) && w.id in s.rows && s.rows[w.id] == w && Servable(w, v.at)
    requires v.turn !in s.turns && v.session !in s.scans && WellAnswered(world, s, w, v)
    requires w.closing.None? && w.expiresAt.value <= v.now && w.expiresAt.value <= world.time(v.checkpoint) * 1000
    requires w.scanAfter.value < v.checkpoint && LastPageEmpty(world, s, w, v)
    ensures var later := Sweep(world, s, w, v);
            && w.id in later.rows && w.id !in later.scanOf
            && later.rows[w.id] == w.(used := w.used + 1, closing := Some(v.checkpoint), scanAfter := Some(v.checkpoint), state := Expired)
  {
    hide Sweep, Honest, Inv, Reach, PageWanted, FirstPayment, WindowQuery, Answers;
    TurnServes(world, s, w, v);
  }

  // ---- A turn that fails -------------------------------------------------------------------

  /** A body that does not validate, or was reported too early for its window, moves nothing: the turn fails. */
  lemma BadPageFails(world: World, s: State, t: nat, w: Row, session: nat, q: Query, k: nat, raw: RawPage, kept: bool)
    requires BeforePage(world, s, t, w, session, q, k) && HonestPage(world, Key(q, TokenSent(PageToken(world, q, k))), raw)
    requires var parsed := ParsePage(raw, q.minRound, q.maxRound, w.spec, world.variant);
             parsed.Ok? ==> parsed.value.currentRound < q.maxRound
    ensures var later := Step(world, s, PageArrives(t, Fetched(raw, kept)));
            SameWork(s, later) && t in later.turns && later.turns[t].pc == FailingPoll(w)
  {
    hide Step, HonestPage, ParsePage, WindowQuery, FirstMatch, Store;
    PageComes(world, s, t, Fetched(raw, kept));
  }

  /** The failure is recorded on the row as it is now; the session and every cached page are dropped with it. */
  lemma TurnFails(world: World, s: State, t: nat, f: Failure, retryAt: Option<int>)
    requires WellFormedTable(s.rows) && t in s.turns
    requires var pc := s.turns[t].pc; pc.AwaitTip? || pc.AwaitBlock? || pc.AwaitSweepTip? || pc.AwaitPage? || pc.FailingPoll?
    ensures var later, id := Step(world, s, PollFails(t, f, retryAt)), s.turns[t].pc.w.id;
            && t !in later.turns && id !in later.scanOf && later.cache == map[] && later.scans == s.scans
            && later.rows == if id in s.rows && s.rows[id].state.Active? && Recordable(f, retryAt)
                             then s.rows[id := s.rows[id].(failure := Some(f), failureCount := s.rows[id].failureCount + 1,
                                                           retryAt := if f.permanent then None else retryAt,
                                                           state := if f.permanent then Indeterminate else Active,
                                                           reason := if f.permanent then Some(IndexerPermanentFailure) else s.rows[id].reason)]
                             else s.rows
  {
    hide Step, WellFormedTable, Apply, ValidFailure, Recordable;
    FailureComes(world, s, t, f, retryAt);
    RecordableExactly(f, retryAt);
    UpdateAdmitted(world.cfg, s.rows, RecordFailure(s.turns[t].pc.w.id, f, retryAt));
  }

  lemma FailureComes(world: World, s: State, t: nat, f: Failure, retryAt: Option<int>)
    requires t in s.turns
    requires var pc := s.turns[t].pc; pc.AwaitTip? || pc.AwaitBlock? || pc.AwaitSweepTip? || pc.AwaitPage? || pc.FailingPoll?
    ensures Step(world, s, PollFails(t, f, retryAt)) == StepPollFails(world, s, t, s.turns[t], f, retryAt)
  {
    hide StepPollFails;
  }

  // ---- A turn that is not due --------------------------------------------------------------

  /** The plan of a polling turn: what its snapshot says about cursor, closing round and failures. */
  function PlanOf(w: Row): WorkClaim
    requires w.scanAfter.Some?
  {
    Polling(w.scanAfter.value, w.closing, w.failureCount)
  }

  lemma OutcomeMeans(r: Row, plan: WorkClaim, at: int)
    ensures OutcomeOf(r, plan, at) == if r.budget.None? || !PlanHolds(r, plan, at) then Inactive
                                      else if r.used < r.budget.value then Claimed else Exhausted
  {
  }

  /** A snapshot that no longer holds, or a watch that is not due: nothing is charged and no turn begins. */
  lemma TurnRefused(world: World, s: State, t: nat, sweep: nat, w: Row, at: int, now: int)
    requires WellFormedTable(s.rows) && t !in s.turns && w in s.listed && Pollable(w)
    requires w.id in s.rows ==> s.rows[w.id].budget.None? || !PlanHolds(s.rows[w.id], PlanOf(w), at)
    ensures var later := Step(world, s, BeginPoll(t, sweep, w, at, now));
            && later.rows == s.rows && later.turns == s.turns && later.scans == s.scans && later.ledger == s.ledger
            && later.scanOf == if KeepsSession(s, w.id) then s.scanOf else s.scanOf - {w.id}
  {
    hide Step, WellFormedTable, Apply, OutcomeOf, PlanHolds, ScanFits, KeepsSession, DropStaleScan;
    Begins(world, s, t, sweep, w, at, now);
    PrunedExactly(s, w.id);
    UpdateAdmitted(world.cfg, s.rows, Claim(w.id, PollClaim(w), at));
    if w.id in s.rows { OutcomeMeans(s.rows[w.id], PlanOf(w), at); }
  }

  /** The budget is spent: the watch is closed as indeterminate, its session is dropped, and no turn begins. */
  lemma TurnExhausts(world: World, s: State, t: nat, sweep: nat, w: Row, at: int, now: int)
    requires WellFormedTable(s.rows) && t !in s.turns && w in s.listed && Pollable(w) && w.id in s.rows
    requires var r := s.rows[w.id]; r.budget.Some? && r.used >= r.budget.value && PlanHolds(r, PlanOf(w), at)
    ensures var later := Step(world, s, BeginPoll(t, sweep, w, at, now));
            && later.rows == s.rows[w.id := s.rows[w.id].(state := Indeterminate, reason := Some(WorkBudgetExhausted), terminal := true)]
            && later.turns == s.turns && w.id !in later.scanOf
  {
    hide Step, WellFormedTable, Apply, OutcomeOf, PlanHolds;
    Begins(world, s, t, sweep, w, at, now);
    UpdateAdmitted(world.cfg, s.rows, Claim(w.id, PollClaim(w), at));
    OutcomeMeans(s.rows[w.id], PlanOf(w), at);
  }

  /** A row without proof-compatible metadata is left alone. */
  lemma UnpollableIgnored(world: World, s: State, t: nat, sweep: nat, w: Row, at: int, now: int)
    requires w.evidenceVersion != 1 || w.scanAfter.None? || w.expiresAt.None?
    ensures Step(world, s, BeginPoll(t, sweep, w, at, now)) == s
  {
  }

  /** Clearing a failure makes an active watch due again at once, and changes nothing else. */
  lemma FailureCleared(world: World, s: State, id: Id)
    requires WellFormedTable(s.rows)
    ensures Step(world, s, ClearPollingFailure(id))
         == s.(rows := if id in s.rows && s.rows[id].state.Active?
                       then s.rows[id := s.rows[id].(failure := None, failureCount := 0, retryAt := None)] else s.rows)
  {
    hide Apply, WellFormedTable;
    UpdateAdmitted(world.cfg, s.rows, ClearFailure(id));
    assert id in s.rows ==> s.rows[id := s.rows[id]] == s.rows;
  }

  /** An interrupted turn is over; whatever it has done so far stays. */
  lemma InterruptEnds(world: World, s: State, t: nat)
    requires t in s.turns
    ensures Step(world, s, Interrupted(t)) == s.(turns := s.turns - {t})
  {
  }
}
