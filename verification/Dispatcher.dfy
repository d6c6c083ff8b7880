/**
 IndexerRequestDispatcher: one token bucket, FIFO queue and concurrency gate, with a terminal drain.

 An operation, an observer and the supplied clock may synchronously dispatch more requests, stop the
 dispatcher or drain it; what each does is its script. The clock may run backwards, throw, or return
 something that is not a number. Only its read inside the start loop must not dispatch
 (ClockReadMustNotDispatch says exactly why). Times are milliseconds as reals; timers are explicit.
 `log`, `readings` and `settlements` only record history.
 */
module Dispatcher {
  import opened Common
  import Lifetimes
  import opened Pacing

  datatype Action = Dispatches(request: Request) | Stops | Drains

  datatype Request = Request(actions: seq<Action>)

  /** One read of the clock: what it does before it answers, and its answer, if that is a finite number. */
  datatype Reading = Reading(value: Option<real>, actions: seq<Action>)

  /** A reading that only answers. */
  function Says(value: real): Reading { Reading(Some(value), []) }

  predicate OnlyStops(actions: seq<Action>) {
    forall a <- actions :: !a.Dispatches?
  }

  function Weight(r: Request): nat
    decreases r, 0
  {
    1 + WeightOf(r.actions)
  }

  function WeightOf(actions: seq<Action>): nat
    decreases actions, |actions|
  {
    if actions == [] then 0
    else WeightIn(actions[0]) + WeightOf(actions[1..])
  }

  function WeightIn(a: Action): nat
    decreases a, 0
  {
    if a.Dispatches? then Weight(a.request) else 0
  }

  /** A queued request, numbered in the order in which requests were accepted. */
  datatype Pending = Pending(ticket: nat, request: Request, enqueuedAt: real)

  function Load(queue: seq<Pending>): nat {
    if queue == [] then 0 else Weight(queue[0].request) + Load(queue[1..])
  }

  function ReadLoad(readings: seq<Reading>): nat {
    if readings == [] then 0 else 1 + WeightOf(readings[0].actions) + ReadLoad(readings[1..])
  }

  lemma {:induction false} LoadAppend(queue: seq<Pending>, p: Pending)
    ensures Load(queue + [p]) == Load(queue) + Weight(p.request)
  {
    if queue == [] {
      assert queue + [p] == [p] && [p][1..] == [];
    } else {
      assert (queue + [p])[1..] == queue[1..] + [p];
      LoadAppend(queue[1..], p);
    }
  }

  // ---- What a pump computes when nobody re-enters ------------------------------------------

  datatype Quiet = Quiet(
    queue: seq<Pending>,
    tokens: real,
    lastRefill: real,
    inFlight: nat,
    log: seq<Start>,
    accepted: nat,
    clockReads: seq<Reading>,
    startReads: seq<Reading>,
    readings: seq<real>)

  function Answer(readings: seq<Reading>, fallback: real): real {
    if readings == [] || readings[0].value.None? then fallback else readings[0].value.value
  }

  function Rest(readings: seq<Reading>): seq<Reading> {
    if readings == [] then [] else readings[1..]
  }

  function QuietRefill(rate: real, burst: nat, s: Quiet): Quiet {
    var current := Answer(s.clockReads, s.lastRefill);
    var read := s.(clockReads := Rest(s.clockReads), readings := s.readings + [current]);
    if current <= s.lastRefill then read
    else read.(tokens := Refilled(rate, burst, s.tokens, current - s.lastRefill), lastRefill := current)
  }

  predicate Startable(s: Quiet, concurrency: nat) {
    s.queue != [] && s.inFlight < concurrency && s.tokens >= 1.0
  }

  function QuietStart(s: Quiet): Quiet
    requires s.queue != []
  {
    var startedAt := Answer(s.startReads, s.lastRefill);
    s.(queue := s.queue[1..], tokens := s.tokens - 1.0, inFlight := s.inFlight + 1,
       log := s.log + [Start(s.queue[0].ticket, s.tokens, s.lastRefill, startedAt)],
       startReads := Rest(s.startReads), readings := s.readings + [startedAt])
  }

  function QuietStarts(concurrency: nat, s: Quiet): Quiet
    decreases |s.queue|
  {
    if Startable(s, concurrency) then QuietStarts(concurrency, QuietStart(s)) else s
  }

  function QuietAccept(s: Quiet, request: Request): Quiet {
    var enqueuedAt := Answer(s.clockReads, s.lastRefill);
    s.(queue := s.queue + [Pending(s.accepted, request, enqueuedAt)], accepted := s.accepted + 1,
       clockReads := Rest(s.clockReads), readings := s.readings + [enqueuedAt])
  }

  function QuietDispatch(rate: real, burst: nat, concurrency: nat, s: Quiet, request: Request): Quiet {
    QuietStarts(concurrency, QuietRefill(rate, burst, QuietAccept(s, request)))
  }

  /** With an empty queue, a request that may start is the only one that does. */
  lemma QuietOne(rate: real, burst: nat, concurrency: nat, s: Quiet, request: Request)
    requires s.queue == []
    ensures var refilled := QuietRefill(rate, burst, QuietAccept(s, request));
            && |refilled.queue| == 1
            && (Startable(refilled, concurrency) ==> QuietDispatch(rate, burst, concurrency, s, request) == QuietStart(refilled))
  {
    hide Refilled;
    var refilled := QuietRefill(rate, burst, QuietAccept(s, request));
    if Startable(refilled, concurrency) {
      var started := QuietStart(refilled);
      assert started.queue == [];
      assert QuietStarts(concurrency, started) == started;
    }
  }

  /** The state after one late start, on a clock whose first start reads later than its refill. */
  function OneLate(lag: real): Quiet {
    Quiet([], 0.0, 0.0, 1, [Start(0, 1.0, 0.0, lag)], 1, [], [], [0.0, 0.0, 0.0, lag])
  }

  lemma FirstStartsLate(rate: real, lag: real, before: Quiet)
    requires before == Quiet([], 1.0, 0.0, 0, [], 0, [Says(0.0), Says(0.0)], [Says(lag)], [0.0])
    ensures QuietDispatch(rate, 1, 2, before, Request([])) == OneLate(lag)
  {
    QuietOne(rate, 1, 2, before, Request([]));
    hide QuietDispatch, QuietStarts;
    var accepted := QuietAccept(before, Request([]));
    assert accepted.clockReads == [Says(0.0)];
    var refilled := QuietRefill(rate, 1, accepted);
    assert refilled.clockReads == [] && refilled.readings == [0.0, 0.0, 0.0];
    assert QuietStart(refilled).queue == [] && QuietStart(refilled).readings == [0.0, 0.0, 0.0, lag];
  }

  lemma SecondStartsEarly(rate: real, lag: real, before: Quiet)
    requires rate > 0.0 && lag > 0.0
    requires var t := NextToken(rate, lag); before == OneLate(lag).(clockReads := [Says(t), Says(t)], startReads := [Says(t)])
    ensures var t, after := NextToken(rate, lag), QuietDispatch(rate, 1, 2, before, Request([]));
            && |after.log| == 2 && after.log[0] == Start(0, 1.0, 0.0, lag) && after.log[1].at == t && after.log[1].read == t
            && after.readings == [0.0, 0.0, 0.0, lag, t, t, t]
  {
    var t := NextToken(rate, lag);
    NextTokenEarned(rate, lag);
    QuietOne(rate, 1, 2, before, Request([]));
    hide QuietDispatch, QuietStarts, NextToken;
    var accepted := QuietAccept(before, Request([]));
    assert accepted.clockReads == [Says(t)];
    var refilled := QuietRefill(rate, 1, accepted);
    assert refilled.tokens == 1.0;
    assert refilled.readings == [0.0, 0.0, 0.0, lag, t, t];
    assert QuietStart(refilled).readings == [0.0, 0.0, 0.0, lag, t, t, t];
  }

  lemma LateStartBreaks(rate: real, lag: real, log: seq<Start>, readings: seq<real>)
    requires rate > 0.0 && lag > 0.0
    requires var t := NextToken(rate, lag);
             && |log| == 2 && log[0] == Start(0, 1.0, 0.0, lag) && log[1].at == t && log[1].read == t
             && readings == [0.0, 0.0, 0.0, lag, t, t, t]
    ensures Ascending(readings) && !WithinBurst(rate, 1, log, 0, 1)
    ensures Lag(log[0]) == lag && Lag(log[1]) == 0.0
  {
    NextTokenEarned(rate, lag);
    hide NextToken;
  }

  /** Anything that can happen to a dispatcher from outside. */
  datatype DispatcherEvent =
    | ClockChanges(clockReads: seq<Reading>, startReads: seq<Reading>)
    | Requested(request: Request)
    | OperationSettles(ticket: nat, interrupted: bool, observer: seq<Action>)
    | SlotFrees(ticket: nat)
    | TimerFired(handle: nat)
    | Told(action: Action)

  // ---- The dispatcher ----------------------------------------------------------------------

  class IndexerRequestDispatcher {
    const rate: real
    const burst: nat
    const concurrency: nat
    var queue: seq<Pending>
    var tokens: real
    var lastRefill: real
    var inFlight: nat
    var timer: Option<nat>
    var armed: map<nat, int>
    var nextTimer: nat
    var schedulingStopped: bool
    var drainRequested: bool
    var drained: bool
    var accepted: nat
    // The operations whose promises have not settled, or have settled but not yet freed their slot.
    var running: set<nat>
    var handled: set<nat>
    // What the supplied clock is going to do, in the start loop and elsewhere; after that it only throws.
    var clockReads: seq<Reading>
    var startReads: seq<Reading>
    ghost var log: seq<Start>
    ghost var readings: seq<real>
    ghost var settlements: multiset<nat>

    /** Settled means: rejected by the fence while queued, or completed after its start. */
    ghost predicate Settled(ticket: nat)
      reads this`accepted, this`log, this`running, this`handled, this`schedulingStopped
    {
      ticket < accepted && (if ticket < |log| then ticket !in running || ticket in handled else schedulingStopped)
    }

    /** The log is paid for, and the clock that dates it is the one that paid. */
    ghost predicate Booked()
      reads this`log, this`tokens, this`lastRefill, this`readings
    {
      Paced(rate, burst, log, tokens, lastRefill) && Timely(log, lastRefill, readings)
    }

    /** Requests start in the order of their tickets, and each start holds one slot until it is released. */
    ghost predicate Counted()
      reads this`queue, this`log, this`inFlight, this`running, this`handled, this`accepted, this`schedulingStopped
    {
      && inFlight == |running| <= concurrency
      && (forall t <- running :: t < |log|) && handled <= running
      && (forall i | 0 <= i < |log| :: log[i].ticket == i)
      && (forall i | 0 <= i < |queue| :: queue[i].ticket == |log| + i)
      && (if schedulingStopped then queue == [] && |log| <= accepted else accepted == |log| + |queue|)
    }

    ghost predicate TimersKnown()
      reads this`timer, this`armed, this`nextTimer, this`schedulingStopped
    {
      && (timer.Some? ==> timer.value in armed && !schedulingStopped) && (forall h <- armed :: h < nextTimer)
    }

    /** Exactly the settled requests have been answered, once each. */
    ghost predicate Answered()
      reads this`settlements, this`accepted, this`log, this`running, this`handled, this`schedulingStopped
    {
      forall t :: settlements[t] == if Settled(t) then 1 else 0
    }

    ghost predicate Valid()
      reads this
    {
      && rate > 0.0 && burst > 0 && concurrency > 0
      && Booked() && Counted() && TimersKnown() && Answered()
      && (drainRequested ==> schedulingStopped) && (drained ==> drainRequested && inFlight == 0)
      && (forall r <- startReads :: OnlyStops(r.actions))
    }

    /** A requested drain resolves as soon as nothing is in flight. */
    ghost predicate DrainDone()
      reads this
    {
      drainRequested && schedulingStopped && inFlight == 0 ==> drained
    }

    /** Queued and dispatched requests together are what the dispatcher owns. */
    function Model(): Lifetimes.Owner
      reads this
    {
      Lifetimes.Owner(schedulingStopped, |queue| + inFlight, drainRequested, drained)
    }

    /** A request waits for a token, not for a slot. */
    predicate Waits()
      reads this
    {
      !schedulingStopped && queue != [] && inFlight < concurrency
    }

    /** Nothing waits without a reason: with a slot free there is no token, and the shortest timer that earns one is armed. */
    ghost predicate Poised()
      reads this
    {
      Waits() ==> tokens < 1.0 && timer.Some? && timer.value in armed && LeastWait(rate, tokens, armed[timer.value])
    }

    /** The guard of the start loop. */
    predicate MayStart()
      reads this
    {
      !schedulingStopped && |queue| > 0 && inFlight < concurrency && tokens >= 1.0
    }

    ghost function Total(): nat
      reads this
    {
      Load(queue) + ReadLoad(clockReads)
    }

    ghost function Now(): Quiet
      reads this
    {
      Quiet(queue, tokens, lastRefill, inFlight, log, accepted, clockReads, startReads, readings)
    }

    /** Nobody is going to re-enter: every script is empty. */
    ghost predicate Calm()
      reads this
    {
      && !schedulingStopped
      && (forall r <- clockReads :: r.actions == []) && (forall r <- startReads :: r.actions == [])
      && (forall p <- queue :: p.request.actions == [])
    }

    /** Once the fence is up and nothing is in flight, every accepted request has been answered exactly once. */
    lemma AllAnswered()
      requires Valid() && schedulingStopped && inFlight == 0
      ensures forall t: nat | t < accepted :: settlements[t] == 1
    {
      assert running == {};
      forall t: nat | t < accepted ensures settlements[t] == 1 { assert Settled(t); }
    }

    /** A resolved drain: nothing is queued or in flight, no timer is tracked, and every request was answered. */
    lemma DrainedMeansIdle()
      requires Valid() && drained
      ensures schedulingStopped && queue == [] && inFlight == 0 && running == {} && timer.None?
      ensures forall t: nat | t < accepted :: settlements[t] == 1
    {
      AllAnswered();
    }

    /** Starts are in the order of acceptance, and any stretch of them is paid for by its refills. */
    lemma StartsPacedAndOrdered(i: nat, j: nat)
      requires Valid() && i <= j < |log|
      ensures log[i].ticket == i && log[j].ticket == j
      ensures (j - i + 1) as real <= burst as real + (Earned(rate, log[j].at) - Earned(rate, log[i].at))
    {
      StartsBounded(rate, burst, log, tokens, lastRefill, i, j);
    }

    /**
     Measured by the clock at which requests start, on a clock that never ran backwards: the burst, what the
     time between earned, and what the first start's lag earned, which is never more than another burst.
     */
    lemma StartTimesBounded(i: nat, j: nat)
      requires Valid() && Ascending(readings) && i <= j < |log|
      ensures (j - i + 1) as real <= burst as real + (log[j].read - log[i].read) * rate / 1000.0 + Lag(log[i]) * rate / 1000.0
      ensures WithinBurst(rate, 2 * burst, log, i, j)
      ensures Lag(log[i]) == 0.0 ==> WithinBurst(rate, burst, log, i, j)
    {
      hide Paced, InTime, WithinBurst;
      StartReadingsBounded(rate, burst, log, tokens, lastRefill, readings[|readings| - 1], i, j);
      StartsWithinTwoBursts(rate, burst, log, tokens, lastRefill, readings[|readings| - 1], i, j);
      if Lag(log[i]) == 0.0 {
        NoLagKeepsPromise(rate, burst, log, tokens, lastRefill, readings[|readings| - 1], i, j);
      }
    }

    /** Starts are never undone, nothing starts after the fence, and the fence and the drain are final. */
    twostate predicate Continues()
      reads this
    {
      && old(log) <= log && old(accepted) <= accepted && old(running) <= running && handled == old(handled)
      && old(lastRefill) <= lastRefill
      && (old(schedulingStopped) ==> schedulingStopped && log == old(log) && accepted == old(accepted) && running == old(running))
      && (old(drainRequested) ==> drainRequested) && (old(drained) ==> drained)
    }

    /** A continuation is a life of an owner: behind the fence its work can only end. */
    twostate lemma ContinuesWinds()
      requires old(Valid()) && old(DrainDone()) && Valid() && DrainDone() && Continues()
      ensures Lifetimes.Sound(Model()) && Lifetimes.Winds(old(Model()), Model())
    {
      hide Booked, Answered, TimersKnown;
    }

    constructor (rate: real, burst: nat, concurrency: nat, now: real)
      requires rate > 0.0 && burst > 0 && concurrency > 0
      ensures Valid() && DrainDone() && Poised() && Calm() && fresh(this)
      ensures this.rate == rate && this.burst == burst && this.concurrency == concurrency
      ensures Now() == Quiet([], burst as real, now, 0, [], 0, [], [], [now])
      ensures Model() == Lifetimes.Idle()
    {
      this.rate, this.burst, this.concurrency := rate, burst, concurrency;
      queue, tokens, lastRefill, inFlight := [], burst as real, now, 0;
      timer, armed, nextTimer := None, map[], 0;
      schedulingStopped, drainRequested, drained := false, false, false;
      accepted, log, running, handled, settlements := 0, [], {}, {}, multiset{};
      clockReads, startReads, readings := [], [], [now];
    }

    /** Any reading; while it is taken, the clock may dispatch, raise the fence or drain. */
    method SafeNow() returns (now: real)
      requires Valid() && DrainDone()
      modifies this
      ensures Valid() && DrainDone() && Continues()
      ensures old(Poised()) ==> Poised()
      ensures readings[|readings| - 1] == now && Total() <= old(Total())
      ensures old(Calm()) ==> Calm() && now == Answer(old(clockReads), old(lastRefill)) && Now() == old(Now()).(clockReads := Rest(old(clockReads)), readings := old(readings) + [now]) && timer == old(timer)
      decreases Total(), 0
    {
      hide Booked, Counted, Answered, TimersKnown;
      if clockReads == [] {
        now := lastRefill;
      } else {
        var reading := clockReads[0];
        clockReads := clockReads[1..];
        RunScript(reading.actions);
        now := if reading.value.Some? then reading.value.value else lastRefill;
      }
      Note(now);
    }

    method Note(now: real)
      requires Valid() && DrainDone()
      modifies this`readings
      ensures Valid() && DrainDone() && readings == old(readings) + [now]
    {
      TimelyReading(log, lastRefill, readings, now);
      hide Paced, Timely, Counted, Answered, TimersKnown;
      readings := readings + [now];
    }

    /** The read inside the start loop: it may raise the fence or drain, and otherwise changes nothing. */
    method ReadStart() returns (now: real)
      requires Valid() && DrainDone()
      modifies this
      ensures Valid() && DrainDone() && Continues()
      ensures log == old(log) && accepted == old(accepted) && running == old(running)
      ensures tokens == old(tokens) && lastRefill == old(lastRefill) && readings[|readings| - 1] == now
      ensures !schedulingStopped ==> queue == old(queue) && inFlight == old(inFlight)
      ensures Total() <= old(Total())
      ensures old(Calm()) ==> && Calm() && now == Answer(old(startReads), old(lastRefill))
                              && Now() == old(Now()).(startReads := Rest(old(startReads)), readings := old(readings) + [now]) && timer == old(timer)
    {
      hide Booked, Counted, Answered, TimersKnown;
      if startReads == [] {
        now := lastRefill;
      } else {
        var reading := startReads[0];
        startReads := startReads[1..];
        RunStops(reading.actions);
        now := if reading.value.Some? then reading.value.value else lastRefill;
      }
      Note(now);
    }

    method RunStops(actions: seq<Action>)
      requires Valid() && DrainDone() && OnlyStops(actions)
      modifies this
      ensures Valid() && DrainDone() && Continues()
      ensures log == old(log) && accepted == old(accepted) && running == old(running) && readings == old(readings)
      ensures tokens == old(tokens) && lastRefill == old(lastRefill)
      ensures !schedulingStopped ==> queue == old(queue) && inFlight == old(inFlight)
      ensures Total() <= old(Total()) && (actions == [] ==> unchanged(this))
    {
      hide Booked, Counted, Answered, TimersKnown;
      var i := 0;
      while i < |actions|
        invariant 0 <= i <= |actions| && Valid() && DrainDone() && Continues()
        invariant log == old(log) && accepted == old(accepted) && running == old(running) && readings == old(readings)
        invariant tokens == old(tokens) && lastRefill == old(lastRefill) && Total() <= old(Total())
        invariant !schedulingStopped ==> queue == old(queue) && inFlight == old(inFlight)
        invariant i == 0 ==> unchanged(this)
      {
        if actions[i].Stops? {
          StopScheduling();
        } else {
          Drain();
        }
        i := i + 1;
      }
    }

    method FinishDrainIfIdle()
      modifies this`drained
      ensures drained == (old(drained) || (drainRequested && inFlight == 0 && queue == [] && timer.None?))
    {
      if inFlight == 0 && queue == [] && timer.None? {
        if drainRequested {
          drained := true;
        }
      }
    }

    method StopScheduling()
      requires Valid() && DrainDone()
      modifies this
      ensures Valid() && DrainDone() && Continues() && schedulingStopped
      ensures old(schedulingStopped) ==> unchanged(this)
      ensures log == old(log) && accepted == old(accepted) && running == old(running) && queue == []
      ensures tokens == old(tokens) && lastRefill == old(lastRefill) && readings == old(readings) && clockReads == old(clockReads)
    {
      hide Booked, Answered;
      if schedulingStopped {
        return;
      }
      ClearTimer();
      RejectQueued();
      FinishDrainIfIdle();
    }

    /** The fence: from here on nothing is admitted or started, and what was queued is rejected, once each. */
    method RejectQueued()
      requires Valid() && !schedulingStopped && timer.None?
      modifies this`schedulingStopped, this`queue, this`settlements
      ensures Valid() && schedulingStopped && queue == []
    {
      hide Booked;
      schedulingStopped := true;
      queue := [];
      RejectAll(|log|);
    }

    ghost method RejectAll(from: nat)
      modifies this`settlements
      ensures forall t :: settlements[t] == old(settlements)[t] + if from <= t < accepted then 1 else 0
    {
      var t := from;
      while t < accepted
        invariant from <= t && (t <= accepted || t == from)
        invariant forall u :: settlements[u] == old(settlements)[u] + if from <= u < t then 1 else 0
      {
        settlements := settlements[t := settlements[t] + 1];
        t := t + 1;
      }
    }

    method Drain()
      requires Valid() && DrainDone()
      modifies this
      ensures Valid() && DrainDone() && Continues() && schedulingStopped && drainRequested
      ensures log == old(log) && accepted == old(accepted) && running == old(running) && queue == []
      ensures tokens == old(tokens) && lastRefill == old(lastRefill) && readings == old(readings) && clockReads == old(clockReads)
    {
      hide Booked, Answered;
      StopScheduling();
      if !drainRequested {
        drainRequested := true;
        FinishDrainIfIdle();
      }
    }

    /** Read the clock, then earn; the bucket is compared with the state after the read, which may have re-entered. */
    method Refill() returns (ghost reading: real, ghost level: real, ghost mark: real)
      requires Valid() && DrainDone()
      modifies this
      ensures Valid() && DrainDone() && Continues() && mark >= old(lastRefill)
      ensures lastRefill == if reading <= mark then mark else reading
      ensures tokens == if reading <= mark then level else Refilled(rate, burst, level, reading - mark)
      ensures Total() <= old(Total())
      ensures old(Calm()) ==> Calm() && mark == old(lastRefill) && level == old(tokens) && Now() == QuietRefill(rate, burst, old(Now())) && timer == old(timer)
      decreases Total(), 1
    {
      hide Booked, Counted, Answered, TimersKnown, Refilled;
      var current := SafeNow();
      reading, level, mark := current, tokens, lastRefill;
      Earn(current);
    }

    /** The bucket gains what the clock has earned since its high-water mark, and never more than the burst. */
    method Earn(current: real)
      requires Valid() && DrainDone() && readings[|readings| - 1] == current
      modifies this`tokens, this`lastRefill
      ensures Valid() && DrainDone()
      ensures lastRefill == if current <= old(lastRefill) then old(lastRefill) else current
      ensures tokens == if current <= old(lastRefill) then old(tokens) else Refilled(rate, burst, old(tokens), current - old(lastRefill))
    {
      if current <= lastRefill {
        return;
      }
      PacedRefill(rate, burst, log, tokens, lastRefill, current);
      TimelyRefill(log, lastRefill, readings);
      hide Paced, Timely, Refilled, Counted, Answered, TimersKnown;
      tokens := Refilled(rate, burst, tokens, current - lastRefill);
      lastRefill := current;
    }

    /** Admit the request and start whatever the gates allow; refused once the fence is up. */
    method Dispatch(request: Request) returns (admitted: bool)
      requires Valid() && DrainDone()
      modifies this
      ensures Valid() && DrainDone() && Continues() && Poised() && !MayStart()
      ensures old(schedulingStopped) ==> !admitted
      ensures admitted ==> accepted > old(accepted)
      ensures !admitted ==> schedulingStopped
      ensures Total() <= old(Total()) + Weight(request)
      ensures old(Calm()) && request.actions == [] ==>
                Calm() && Now() == QuietDispatch(rate, burst, concurrency, old(Now()), request)
      decreases Total() + Weight(request), 3
    {
      hide Booked, Counted, Answered, TimersKnown, QuietStarts, QuietRefill;
      if schedulingStopped {
        return false;
      }
      var enqueuedAt := SafeNow();
      if schedulingStopped {
        return false;
      }
      Enqueue(request, enqueuedAt);
      Pump();
      return true;
    }

    method Enqueue(request: Request, enqueuedAt: real)
      requires Valid() && DrainDone() && !schedulingStopped
      modifies this`queue, this`accepted
      ensures Valid() && DrainDone() && Continues()
      ensures queue == old(queue) + [Pending(old(accepted), request, enqueuedAt)] && accepted == old(accepted) + 1
      ensures Total() == old(Total()) + Weight(request)
    {
      hide Booked, TimersKnown;
      var pending := Pending(accepted, request, enqueuedAt);
      LoadAppend(queue, pending);
      queue := queue + [pending];
      accepted := accepted + 1;
    }

    method Pump()
      requires Valid() && DrainDone()
      modifies this
      ensures Valid() && DrainDone() && Continues() && Poised() && !MayStart()
      ensures Total() <= old(Total())
      ensures old(Calm()) ==> Calm() && Now() == QuietStarts(concurrency, QuietRefill(rate, burst, old(Now())))
      ensures old(Calm()) ==> (timer.Some? <==> Waits())
      decreases Total(), 2
    {
      hide Booked, Counted, Answered, TimersKnown, QuietRefill, QuietStarts, LeastWait;
      if schedulingStopped {
        return;
      }
      ClearTimer();
      ghost var reading, level, mark := Refill();
      StartWhatMay();
      if Waits() {
        Arm();
      }
    }

    /** The start loop. */
    method StartWhatMay()
      requires Valid() && DrainDone()
      modifies this
      ensures Valid() && DrainDone() && Continues() && !MayStart()
      ensures Total() <= old(Total())
      ensures old(Calm()) ==> Calm() && Now() == QuietStarts(concurrency, old(Now())) && timer == old(timer)
      decreases Total(), 1
    {
      hide Booked, Counted, Answered, TimersKnown;
      while MayStart()
        invariant Valid() && DrainDone() && Continues() && Total() <= old(Total())
        invariant old(Calm()) ==> Calm() && QuietStarts(concurrency, Now()) == QuietStarts(concurrency, old(Now())) && timer == old(timer)
        decreases Total(), MayStart()
      {
        StartNext();
      }
    }

    /** One round of the start loop. */
    method StartNext()
      requires Valid() && DrainDone() && MayStart()
      modifies this
      ensures Valid() && DrainDone() && Continues()
      ensures Total() < old(Total()) || !MayStart()
      ensures Total() <= old(Total())
      ensures old(Calm()) ==> Calm() && Now() == QuietStart(old(Now())) && timer == old(timer)
      decreases Total(), 0
    {
      hide Booked, Counted, Answered, TimersKnown;
      var startedAt := ReadStart();
      if schedulingStopped {
        return;
      }
      var pending := queue[0];
      StartFirst(startedAt);
      RunScript(pending.request.actions);
    }

    method ClearTimer()
      requires Valid() && DrainDone()
      modifies this`armed, this`timer
      ensures Valid() && DrainDone() && Continues() && timer.None?
    {
      hide Booked, Counted, Answered;
      if timer.Some? {
        armed := armed - {timer.value};
        timer := None;
      }
    }

    /** Take the oldest request off the queue, spend a token and a slot. */
    method StartFirst(startedAt: real)
      requires Valid() && DrainDone() && MayStart() && readings[|readings| - 1] == startedAt
      modifies this`queue, this`log, this`tokens, this`inFlight, this`running
      ensures Valid() && DrainDone() && Continues()
      ensures queue == old(queue[1..]) && log == old(log) + [Start(old(queue[0].ticket), old(tokens), lastRefill, startedAt)]
      ensures inFlight == old(inFlight) + 1 && tokens == old(tokens) - 1.0
    {
      PacedStart(rate, burst, log, tokens, lastRefill, startedAt);
      TimelyStart(log, lastRefill, readings, |log|, tokens);
      hide Paced, Timely, TimersKnown;
      var ticket := queue[0].ticket;
      queue := queue[1..];
      log := log + [Start(ticket, tokens, lastRefill, startedAt)];
      tokens := tokens - 1.0;
      inFlight := inFlight + 1;
      running := running + {ticket};
    }

    method Arm()
      requires Valid() && DrainDone() && !schedulingStopped && tokens < 1.0
      modifies this`timer, this`armed, this`nextTimer
      ensures Valid() && DrainDone() && Continues() && Poised() && timer.Some?
    {
      hide Booked, Counted, Answered, LeastWait, Delay;
      DelayIsLeast(rate, tokens);
      armed := armed[nextTimer := Delay(rate, tokens)];
      timer := Some(nextTimer);
      nextTimer := nextTimer + 1;
    }

    /** What supplied code does synchronously: dispatch, stop or drain, in any order. */
    method RunScript(actions: seq<Action>)
      requires Valid() && DrainDone()
      modifies this
      ensures Valid() && DrainDone() && Continues()
      ensures old(Poised()) ==> Poised()
      ensures !old(MayStart()) || !OnlyStops(actions) ==> !MayStart()
      ensures OnlyStops(actions) ==> schedulingStopped || (queue == old(queue) && tokens == old(tokens) && inFlight == old(inFlight))
      ensures Total() <= old(Total()) + WeightOf(actions)
      ensures actions == [] ==> unchanged(this)
      decreases Total() + WeightOf(actions), 5
    {
      hide Booked, Counted, Answered, TimersKnown;
      var i := 0;
      while i < |actions|
        invariant 0 <= i <= |actions|
        invariant Valid() && DrainDone() && Continues()
        invariant old(Poised()) ==> Poised()
        invariant !old(MayStart()) || !OnlyStops(actions[..i]) ==> !MayStart()
        invariant OnlyStops(actions[..i]) ==> schedulingStopped || (queue == old(queue) && tokens == old(tokens) && inFlight == old(inFlight))
        invariant Total() + WeightOf(actions[i..]) <= old(Total()) + WeightOf(actions)
        invariant i == 0 ==> unchanged(this)
      {
        assert actions[i..][1..] == actions[i + 1..];
        assert actions[..i + 1] == actions[..i] + [actions[i]];
        Act(actions[i]);
        i := i + 1;
      }
      assert actions[..i] == actions;
    }

    method Act(action: Action)
      requires Valid() && DrainDone()
      modifies this
      ensures Valid() && DrainDone() && Continues()
      ensures old(Poised()) ==> Poised()
      ensures !old(MayStart()) || action.Dispatches? ==> !MayStart()
      ensures !action.Dispatches? ==> schedulingStopped
      ensures Total() <= old(Total()) + WeightIn(action)
      decreases Total() + WeightIn(action), if action.Dispatches? then 4 else 0
    {
      hide Booked, Counted, Answered, TimersKnown;
      match action {
        case Dispatches(request) => var admitted := Dispatch(request);
        case Stops => StopScheduling();
        case Drains => Drain();
      }
    }

    /**
     Why the read inside the start loop must not dispatch: the loop does not check its guard again. A read
     there that leaves the dispatcher open leaves the guard true if and only if it dispatched nothing, since
     a nested pump stops only when there is nothing left to start or nothing left to start it with.
     */
    method ClockReadMustNotDispatch(actions: seq<Action>)
      requires Valid() && DrainDone() && MayStart()
      modifies this
      ensures Valid() && DrainDone() && Continues()
      ensures !schedulingStopped ==> (MayStart() <==> OnlyStops(actions))
    {
      RunScript(actions);
    }

    /** An operation's promise settles: the observer runs, unless shutdown cut it short, and the caller is answered. */
    method Complete(ticket: nat, interrupted: bool, observer: seq<Action>)
      requires Valid() && DrainDone() && Poised() && ticket in running && ticket !in handled
      modifies this
      ensures Valid() && DrainDone() && Poised() && Lifetimes.Winds(old(Model()), Model())
      ensures old(settlements)[ticket] == 0 && settlements[ticket] == 1
      ensures handled == old(handled) + {ticket} && old(log) <= log
      ensures old(schedulingStopped) ==> schedulingStopped && log == old(log)
    {
      hide Booked, TimersKnown, Counted, Answered;
      assert old(settlements)[ticket] == 0 by { StillUnanswered(ticket); }
      if !interrupted {
        var finishedAt := SafeNow();
        RunScript(observer);
      }
      ContinuesWinds();
      AnswerOnce(ticket);
    }

    lemma StillUnanswered(ticket: nat)
      requires Valid() && ticket in running && ticket !in handled
      ensures settlements[ticket] == 0
    {
      hide Booked, TimersKnown;
      assert ticket < |log| && !Settled(ticket);
    }

    method AnswerOnce(ticket: nat)
      requires Valid() && ticket in running && ticket !in handled
      modifies this`settlements, this`handled
      ensures Valid() && settlements == old(settlements)[ticket := 1] && handled == old(handled) + {ticket}
    {
      StillUnanswered(ticket);
      hide Booked, TimersKnown;
      settlements := settlements[ticket := settlements[ticket] + 1];
      handled := handled + {ticket};
    }

    /** The continuation after settlement: free the slot, then finish a drain or start what waits. */
    method Release(ticket: nat)
      requires Valid() && DrainDone() && Poised() && ticket in handled
      modifies this
      ensures Valid() && DrainDone() && Poised() && old(log) <= log && Lifetimes.Winds(old(Model()), Model())
      ensures old(schedulingStopped) ==> schedulingStopped && log == old(log) && running == old(running) - {ticket}
    {
      hide Booked, Answered;
      FreeSlot(ticket);
      if schedulingStopped {
        FinishDrainIfIdle();
      } else {
        Pump();
      }
    }

    method FreeSlot(ticket: nat)
      requires Valid() && ticket in handled
      modifies this`running, this`handled, this`inFlight
      ensures Valid() && running == old(running) - {ticket} && inFlight == old(inFlight) - 1
    {
      hide Booked, TimersKnown;
      running, handled := running - {ticket}, handled - {ticket};
      inFlight := inFlight - 1;
    }

    /** Any timer that is still armed fires, the tracked one or one that a nested pump left behind. */
    method TimerFires(handle: nat)
      requires Valid() && DrainDone() && Poised() && handle in armed
      modifies this
      ensures Valid() && DrainDone() && Poised() && Continues()
    {
      hide Booked, Counted, Answered;
      if timer != Some(handle) {
        armed := armed - {handle};
      }
      Pump();
    }

    /** What the supplied clock is going to do; the reads inside the start loop do not dispatch. */
    method SetClock(clock: seq<Reading>, starts: seq<Reading>)
      requires Valid() && DrainDone() && forall r <- starts :: OnlyStops(r.actions)
      modifies this`clockReads, this`startReads
      ensures Valid() && DrainDone() && Continues() && clockReads == clock && startReads == starts
    {
      hide Booked, Counted, Answered, TimersKnown;
      clockReads, startReads := clock, starts;
    }

    /** What holds between events. */
    ghost predicate Steady()
      reads this
    {
      Valid() && DrainDone() && Poised()
    }

    /** Whatever happens, the dispatcher lives as an owner of its queued and dispatched requests. */
    method Happens(e: DispatcherEvent)
      requires Steady()
      modifies this
      ensures Steady() && Lifetimes.Sound(Model()) && Lifetimes.Winds(old(Model()), Model())
      ensures (e == Told(Stops) ==> schedulingStopped) && (e == Told(Drains) ==> drainRequested)
    {
      hide Booked, Counted, Answered, TimersKnown;
      match e {
        case ClockChanges(more, starts) =>
          if forall r <- starts :: OnlyStops(r.actions) {
            SetClock(more, starts);
          }
          ContinuesWinds();
        case Requested(request) =>
          var admitted := Dispatch(request);
          ContinuesWinds();
        case OperationSettles(ticket, interrupted, observer) =>
          if ticket in running && ticket !in handled {
            Complete(ticket, interrupted, observer);
          }
          StaysSound();
        case SlotFrees(ticket) =>
          if ticket in handled {
            Release(ticket);
          }
          StaysSound();
        case TimerFired(handle) =>
          if handle in armed {
            TimerFires(handle);
          }
          ContinuesWinds();
        case Told(action) => Tell(action);
      }
    }

    /** A call from outside: one more request, the fence, or the drain. */
    method Tell(action: Action)
      requires Steady()
      modifies this
      ensures Steady() && Lifetimes.Sound(Model()) && Lifetimes.Winds(old(Model()), Model())
      ensures action.Stops? ==> schedulingStopped
      ensures action.Drains? ==> drainRequested
    {
      hide Booked, Counted, Answered, TimersKnown;
      match action {
        case Dispatches(request) => var admitted := Dispatch(request);
        case Stops => StopScheduling();
        case Drains => Drain();
      }
      ContinuesWinds();
    }

    lemma StaysSound()
      requires Valid() && DrainDone()
      ensures Lifetimes.Sound(Model())
    {
      hide Booked, Answered, TimersKnown;
    }

    method PrepareLateStart(lag: real)
      requires Steady() && burst == 1 && concurrency == 2
      requires Calm() && Now() == Quiet([], 1.0, 0.0, 0, [], 0, [], [], [0.0])
      modifies this
      ensures Steady() && Calm() && Now() == OneLate(lag)
    {
      hide Booked, Counted, Answered, TimersKnown, QuietDispatch;
      SetClock([Says(0.0), Says(0.0)], [Says(lag)]);
      FirstStartsLate(rate, lag, Now());
      var admitted := Dispatch(Request([]));
    }

    method FollowLateStart(lag: real)
      requires Steady() && burst == 1 && concurrency == 2 && lag > 0.0
      requires Calm() && Now() == OneLate(lag)
      modifies this
      ensures Steady()
      ensures var t := NextToken(rate, lag);
              && |log| == 2 && log[0] == Start(0, 1.0, 0.0, lag) && log[1].at == t && log[1].read == t
              && readings == [0.0, 0.0, 0.0, lag, t, t, t]
    {
      hide Booked, Counted, Answered, TimersKnown, QuietDispatch, NextToken;
      var t := NextToken(rate, lag);
      SetClock([Says(t), Says(t)], [Says(t)]);
      SecondStartsEarly(rate, lag, Now());
      var admitted := Dispatch(Request([]));
    }
  }

  type Positive = r: real | r > 0.0 witness 1.0

  /**
   A run whose clock never goes back and whose starts still come faster than promised: the first start reads
   a clock that has moved on since its refill, so the next refill is paid for that time once more.
   */
  method LateStart(rate: Positive, lag: Positive) returns (d: IndexerRequestDispatcher)
    ensures fresh(d) && d.Steady() && d.rate == rate && d.burst == 1
    ensures Ascending(d.readings) && |d.log| == 2
    ensures d.log[0] == Start(0, 1.0, 0.0, lag) && d.log[1].read == NextToken(rate, lag)
    ensures Lag(d.log[0]) == lag && Lag(d.log[1]) == 0.0
    ensures !WithinBurst(rate, 1, d.log, 0, 1)
  {
    hide IndexerRequestDispatcher.Booked, IndexerRequestDispatcher.Counted, IndexerRequestDispatcher.Answered, IndexerRequestDispatcher.TimersKnown;
    hide NextToken, WithinBurst;
    d := new IndexerRequestDispatcher(rate, 1, 2, 0.0);
    d.PrepareLateStart(lag);
    d.FollowLateStart(lag);
    LateStartBreaks(rate, lag, d.log, d.readings);
  }
}
