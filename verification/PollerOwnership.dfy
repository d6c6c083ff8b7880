/**
 What the poller owns. Direct sweeps and the scheduled wrapper share one counter; a scheduled sweep holds it
 twice, once for the sweep and once for the wrapper, which outlives it to probe and to arm the next timer.
 */
module PollerOwnership {
  import opened Lifetimes

  /** Where the scheduled wrapper is suspended: in its sweep, after it, or nowhere. */
  datatype Phase = Idle | Sweeping | Finishing

  function Held(phase: Phase): nat {
    match phase case Idle => 0 case Sweeping => 2 case Finishing => 1
  }

  /** What supplied code may do synchronously while a sweep starts. */
  datatype Call = Starts(inside: seq<Call>) | Pauses | StopsForGood | Joins | Sweeps(inside: seq<Call>)

  datatype PollerEvent =
    | Called(call: Call)
    | TimerFired(inside: seq<Call>)
    | DirectSweepSettles
    | ScheduledSweepSettles
    | WrapperEnds

  class RoundWatchPoller {
    var started: bool
    var running: bool
    var schedulingStopped: bool
    var ownedLifecycles: nat
    var drainRequested: bool
    var drained: bool
    var armed: bool
    var generation: nat
    var phase: Phase
    var direct: nat

    function Model(): Owner
      reads this
    {
      Owner(schedulingStopped, ownedLifecycles, drainRequested, drained)
    }

    /** The counter is exactly what is under way, at most one wrapper at a time. */
    ghost predicate Counted()
      reads this
    {
      && Sound(Model())
      && ownedLifecycles == direct + Held(phase)
      && (running <==> !phase.Idle?)
      && (armed ==> started && !running)
    }

    /** A started poller never stalls: its wrapper is under way or its timer is armed. */
    ghost predicate Valid()
      reads this
    {
      Counted() && (started ==> !schedulingStopped && (running || armed))
    }

    /** A resolved drain: no sweep, no wrapper and no timer is left, so nothing can read or write the store. */
    lemma DrainedMeansIdle()
      requires Valid() && drained
      ensures schedulingStopped && direct == 0 && phase.Idle? && !running && !armed && !started
    {
    }

    constructor ()
      ensures Valid() && Model() == Lifetimes.Idle() && !started
    {
      started, running, schedulingStopped, ownedLifecycles := false, false, false, 0;
      drainRequested, drained, armed, generation, phase, direct := false, false, false, 0, Phase.Idle, 0;
    }

    method Start(inside: seq<Call>)
      requires Valid()
      modifies this
      ensures Valid() && Winds(old(Model()), Model()) && old(generation) <= generation
      ensures old(schedulingStopped || started) ==> unchanged(this)
      ensures direct >= old(direct) && Held(phase) >= old(Held(phase))
      // Resuming while the old wrapper is under way starts no second one: that wrapper will arm the timer.
      ensures !old(schedulingStopped || started) && inside == [] ==>
                started && generation == old(generation) + 1 && running && direct == old(direct) && schedulingStopped == old(schedulingStopped)
                && phase == (if old(running) then old(phase) else Sweeping)
      decreases inside, 2
    {
      if schedulingStopped || started {
        return;
      }
      started := true;
      generation := generation + 1;
      Tick(inside);
    }

    /** A pause, not a fence: the wrapper under way goes on, and start() resumes. */
    method Stop()
      requires Counted()
      modifies this`started, this`generation, this`armed
      ensures Valid() && !started && !armed && generation == old(generation) + 1
    {
      started := false;
      generation := generation + 1;
      armed := false;
    }

    method StopScheduling()
      requires Valid()
      modifies this`schedulingStopped, this`started, this`generation, this`armed
      ensures Valid() && Model() == Fence(old(Model()))
      ensures generation == old(generation) + (if old(schedulingStopped) then 0 else 1)
    {
      if schedulingStopped {
        return;
      }
      schedulingStopped := true;
      Stop();
    }

    method Drain()
      requires Valid()
      modifies this`schedulingStopped, this`started, this`generation, this`armed, this`drainRequested, this`drained
      ensures Valid() && Model() == DrainAll(old(Model()))
      ensures generation == old(generation) + (if old(schedulingStopped) then 0 else 1)
    {
      StopScheduling();
      drainRequested := true;
      ResolveDrainIfIdle();
    }

    method ResolveDrainIfIdle()
      modifies this`drained
      ensures drained == (old(drained) || (drainRequested && ownedLifecycles == 0))
    {
      if ownedLifecycles == 0 && drainRequested {
        drained := true;
      }
    }

    /** The synchronous head of runOnce: refused behind the fence, otherwise owned before anything runs. */
    method AcquireSweep() returns (admitted: bool)
      modifies this`ownedLifecycles
      ensures admitted == !schedulingStopped && ownedLifecycles == old(ownedLifecycles) + if admitted then 1 else 0
    {
      if schedulingStopped {
        return false;
      }
      ownedLifecycles := ownedLifecycles + 1;
      return true;
    }

    method RunOnce(inside: seq<Call>) returns (admitted: bool)
      requires Valid()
      modifies this
      ensures Valid() && Winds(old(Model()), Model()) && old(generation) <= generation
      ensures admitted == !old(schedulingStopped) && (!admitted ==> unchanged(this))
      ensures direct >= old(direct) + (if admitted then 1 else 0) && Held(phase) >= old(Held(phase))
      ensures admitted && inside == [] ==> direct == old(direct) + 1 && Model() == Admit(old(Model()))
      ensures admitted && inside == [] ==> started == old(started) && phase == old(phase) && generation == old(generation)
      decreases inside, 2
    {
      admitted := AcquireSweep();
      if admitted {
        direct := direct + 1;
        RunScript(inside);
      }
    }

    /** tick(): the wrapper takes its own share of the counter before the sweep takes another. */
    method Tick(inside: seq<Call>)
      requires Counted() && !armed && (started ==> !schedulingStopped)
      modifies this
      ensures Valid() && Winds(old(Model()), Model()) && old(generation) <= generation
      ensures old(schedulingStopped || !started || running) ==> unchanged(this)
      ensures direct >= old(direct) && Held(phase) >= old(Held(phase))
      ensures !old(schedulingStopped || !started || running) && inside == [] ==>
                phase.Sweeping? && started && generation == old(generation) && direct == old(direct) && Model() == Admit(Admit(old(Model())))
      decreases inside, 1
    {
      if schedulingStopped || !started || running {
        return;
      }
      running := true;
      ownedLifecycles := ownedLifecycles + 1;
      var admitted := AcquireSweep();
      phase := if admitted then Sweeping else Finishing;
      RunScript(inside);
    }

    method RunScript(inside: seq<Call>)
      requires Valid()
      modifies this
      ensures Valid() && Winds(old(Model()), Model()) && old(generation) <= generation
      ensures direct >= old(direct) && Held(phase) >= old(Held(phase))
      ensures inside == [] ==> unchanged(this)
      decreases inside, 0
    {
      var i := 0;
      while i < |inside|
        invariant 0 <= i <= |inside| && Valid() && Winds(old(Model()), Model()) && old(generation) <= generation
        invariant direct >= old(direct) && Held(phase) >= old(Held(phase))
        invariant i == 0 ==> unchanged(this)
      {
        Obey(inside[i]);
        i := i + 1;
      }
    }

    method Obey(call: Call)
      requires Valid()
      modifies this
      ensures Valid() && Winds(old(Model()), Model()) && old(generation) <= generation
      ensures direct >= old(direct) && Held(phase) >= old(Held(phase))
      ensures (call.StopsForGood? ==> Model().stopped) && (call.Joins? ==> drainRequested)
      decreases call, 0
    {
      match call {
        case Starts(inside) => Start(inside);
        case Pauses => Stop();
        case StopsForGood => StopScheduling();
        case Joins => Drain();
        case Sweeps(inside) => var admitted := RunOnce(inside);
      }
    }

    /** The finally of runOnce. */
    method ReleaseSweep(scheduled: bool)
      requires Valid() && if scheduled then phase.Sweeping? else direct > 0
      modifies this`ownedLifecycles, this`drained, this`phase, this`direct
      ensures Valid() && Model() == FinishOne(old(Model()))
      ensures if scheduled then phase.Finishing? && direct == old(direct) else phase == old(phase) && direct == old(direct) - 1
    {
      if scheduled {
        phase := Finishing;
      } else {
        direct := direct - 1;
      }
      ownedLifecycles := ownedLifecycles - 1;
      ResolveDrainIfIdle();
    }

    /** The finally of tick: arm the next timer only while started, and give up the wrapper's own share. */
    method EndTick()
      requires Valid() && phase.Finishing?
      modifies this`running, this`phase, this`armed, this`ownedLifecycles, this`drained
      ensures Valid() && Model() == FinishOne(old(Model())) && !running && armed == started
    {
      running := false;
      phase := Phase.Idle;
      if started && !schedulingStopped {
        armed := true;
      }
      ownedLifecycles := ownedLifecycles - 1;
      ResolveDrainIfIdle();
    }

    method TimerFires(inside: seq<Call>)
      requires Valid() && armed
      modifies this
      ensures Valid() && Winds(old(Model()), Model()) && old(generation) <= generation
      ensures inside == [] ==> phase.Sweeping? && started && !armed && direct == old(direct) && generation == old(generation)
    {
      armed := false;
      Tick(inside);
    }

    /** Anything that can happen to the poller. */
    method Happens(e: PollerEvent)
      requires Valid()
      modifies this
      ensures Valid() && Winds(old(Model()), Model()) && old(generation) <= generation
      ensures (e == Called(StopsForGood) ==> Model().stopped) && (e == Called(Joins) ==> drainRequested)
    {
      match e {
        case Called(call) => Obey(call);
        case TimerFired(inside) => if armed { TimerFires(inside); }
        case DirectSweepSettles => if direct > 0 { ReleaseSweep(false); }
        case ScheduledSweepSettles => if phase.Sweeping? { ReleaseSweep(true); }
        case WrapperEnds => if phase.Finishing? { EndTick(); }
      }
    }
  }
}
