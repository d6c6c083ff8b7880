/**
 What the reconciler owns. ownWork() counts sweeps and, around a scheduled sweep, its wrapper too. The drain
 promise is resolved at once when nothing is owned, and otherwise by the release that reaches zero.
 */
module ReconcilerOwnership {
  import opened Lifetimes

  /** Where the scheduled wrapper is suspended: in its sweep, in what follows it, or nowhere. */
  datatype Phase = Idle | Sweeping | Finishing

  function Held(phase: Phase): nat {
    match phase case Idle => 0 case Sweeping => 2 case Finishing => 1
  }

  /** What supplied code may do synchronously while a sweep starts. */
  datatype Call = Starts(inside: seq<Call>) | Pauses | StopsForGood | Joins | Sweeps(inside: seq<Call>)

  datatype ReconcilerEvent =
    | Called(call: Call)
    | IntervalFired(inside: seq<Call>)
    | DirectSweepSettles
    | ScheduledSweepSettles
    | WrapperFinishes
    | WrapperReleases

  class RoundWatchReconciler {
    var timer: bool
    var intervals: nat
    var scheduledRunning: bool
    var shutdownStarted: bool
    var ownedWork: nat
    var drainRequested: bool
    var resolver: bool
    var drained: bool
    var generation: nat
    var phase: Phase
    var leaving: nat
    var direct: nat

    function Model(): Owner
      reads this
    {
      Owner(shutdownStarted, ownedWork, drainRequested, drained)
    }

    /** The counter is exactly what is under way; a wrapper holds its share until its last continuation. */
    ghost predicate Valid()
      reads this
    {
      && Sound(Model())
      && ownedWork == direct + Held(phase) + leaving
      && (scheduledRunning <==> !phase.Idle?)
      && (drainRequested && ownedWork > 0 ==> resolver) && (resolver ==> drainRequested)
      && (timer ==> intervals > 0 && !shutdownStarted)
    }

    /** A resolved drain: no sweep and no wrapper is left, so nothing can read or write the store. */
    lemma DrainedMeansIdle()
      requires Valid() && drained
      ensures shutdownStarted && direct == 0 && phase.Idle? && leaving == 0 && !scheduledRunning && !timer
    {
    }

    constructor ()
      ensures Valid() && Model() == Lifetimes.Idle() && !timer
    {
      timer, intervals, scheduledRunning, shutdownStarted, ownedWork := false, 0, false, false, 0;
      drainRequested, resolver, drained, generation := false, false, false, 0;
      phase, leaving, direct := Phase.Idle, 0, 0;
    }

    /** The first run happens before the interval is set, and may itself raise the fence. */
    method Start(inside: seq<Call>)
      requires Valid()
      modifies this
      ensures Valid() && Winds(old(Model()), Model()) && old(generation) <= generation
      ensures old(shutdownStarted || timer) ==> unchanged(this)
      ensures direct >= old(direct) && Held(phase) >= old(Held(phase)) && leaving == old(leaving)
      ensures !old(shutdownStarted || timer) && inside == [] ==>
                timer && intervals == old(intervals) + 1 && generation == old(generation) + 1 && direct == old(direct)
                && phase == (if old(scheduledRunning) then old(phase) else Sweeping) && shutdownStarted == old(shutdownStarted)
      decreases inside, 2
    {
      if shutdownStarted || timer {
        return;
      }
      generation := generation + 1;
      Run(inside);
      if shutdownStarted {
        return;
      }
      timer := true;
      intervals := intervals + 1;
    }

    /** A pause, not a fence: work under way goes on, and start() resumes. */
    method Stop()
      requires timer ==> intervals > 0
      modifies this`timer, this`intervals, this`generation
      ensures !timer && generation == old(generation) + 1 && intervals == old(intervals) - (if old(timer) then 1 else 0)
    {
      generation := generation + 1;
      if timer {
        intervals := intervals - 1;
      }
      timer := false;
    }

    method StopScheduling()
      requires Valid()
      modifies this`shutdownStarted, this`timer, this`intervals, this`generation
      ensures Valid() && Model() == Fence(old(Model())) && !timer
      ensures generation == old(generation) + (if old(shutdownStarted) then 0 else 1)
    {
      if shutdownStarted {
        return;
      }
      shutdownStarted := true;
      Stop();
    }

    method Drain()
      requires Valid()
      modifies this`shutdownStarted, this`timer, this`intervals, this`generation, this`drainRequested, this`resolver, this`drained
      ensures Valid() && Model() == DrainAll(old(Model())) && !timer
      ensures generation == old(generation) + (if old(shutdownStarted) then 0 else 1)
    {
      StopScheduling();
      if !drainRequested {
        drainRequested := true;
        if ownedWork == 0 {
          drained := true;
        } else {
          resolver := true;
        }
      }
    }

    method ReleaseWork()
      requires ownedWork > 0
      modifies this`ownedWork, this`drained
      ensures ownedWork == old(ownedWork) - 1 && drained == (old(drained) || (ownedWork == 0 && resolver))
    {
      ownedWork := ownedWork - 1;
      if ownedWork == 0 && resolver {
        drained := true;
      }
    }

    /** The synchronous head of reconcileOnce: refused behind the fence, otherwise owned before the sweep runs. */
    method AcquireSweep() returns (admitted: bool)
      modifies this`ownedWork
      ensures admitted == !shutdownStarted && ownedWork == old(ownedWork) + if admitted then 1 else 0
    {
      if shutdownStarted {
        return false;
      }
      ownedWork := ownedWork + 1;
      return true;
    }

    method ReconcileOnce(inside: seq<Call>) returns (admitted: bool)
      requires Valid()
      modifies this
      ensures Valid() && Winds(old(Model()), Model()) && old(generation) <= generation
      ensures admitted == !old(shutdownStarted) && (!admitted ==> unchanged(this))
      ensures direct >= old(direct) + (if admitted then 1 else 0) && Held(phase) >= old(Held(phase)) && leaving == old(leaving)
      ensures admitted && inside == [] ==> direct == old(direct) + 1 && Model() == Admit(old(Model()))
      ensures admitted && inside == [] ==> timer == old(timer) && phase == old(phase) && generation == old(generation)
      decreases inside, 2
    {
      admitted := AcquireSweep();
      if admitted {
        direct := direct + 1;
        RunScript(inside);
      }
    }

    /** The scheduled run: the wrapper takes a share of its own around the sweep's. */
    method Run(inside: seq<Call>)
      requires Valid()
      modifies this
      ensures Valid() && Winds(old(Model()), Model()) && old(generation) <= generation
      ensures old(shutdownStarted || scheduledRunning) ==> unchanged(this)
      ensures direct >= old(direct) && Held(phase) >= old(Held(phase)) && leaving == old(leaving)
      ensures !old(shutdownStarted || scheduledRunning) && inside == [] ==>
                phase.Sweeping? && direct == old(direct) && Model() == Admit(Admit(old(Model())))
      ensures inside == [] ==> timer == old(timer) && intervals == old(intervals) && generation == old(generation)
      decreases inside, 1
    {
      if shutdownStarted || scheduledRunning {
        return;
      }
      scheduledRunning := true;
      ownedWork := ownedWork + 1;
      var admitted := AcquireSweep();
      phase := if admitted then Sweeping else Finishing;
      RunScript(inside);
    }

    method RunScript(inside: seq<Call>)
      requires Valid()
      modifies this
      ensures Valid() && Winds(old(Model()), Model()) && old(generation) <= generation
      ensures direct >= old(direct) && Held(phase) >= old(Held(phase)) && leaving == old(leaving)
      ensures inside == [] ==> unchanged(this)
      decreases inside, 0
    {
      var i := 0;
      while i < |inside|
        invariant 0 <= i <= |inside| && Valid() && Winds(old(Model()), Model()) && old(generation) <= generation
        invariant direct >= old(direct) && Held(phase) >= old(Held(phase)) && leaving == old(leaving)
        invariant i == 0 ==> unchanged(this)
      {
        Obey(inside[i]);
        i := i + 1;
      }
    }

    method Obey(call: Call)
      requires Valid()
      modifies this
      ensures Valid() && Winds(old(Model()), Model()) && old(generation) <= generation
      ensures direct >= old(direct) && Held(phase) >= old(Held(phase)) && leaving == old(leaving)
      ensures (call.StopsForGood? ==> Model().stopped) && (call.Joins? ==> drainRequested)
      decreases call, 0
    {
      match call {
        case Starts(inside) => Start(inside);
        case Pauses => Stop();
        case StopsForGood => StopScheduling();
        case Joins => Drain();
        case Sweeps(inside) => var admitted := ReconcileOnce(inside);
      }
    }

    /** A sweep's own share ends; its wrapper, if any, goes on. */
    method EndSweep(scheduled: bool)
      requires Valid() && if scheduled then phase.Sweeping? else direct > 0
      modifies this`ownedWork, this`drained, this`phase, this`direct
      ensures Valid() && Model() == FinishOne(old(Model()))
      ensures if scheduled then phase.Finishing? && direct == old(direct) else phase == old(phase) && direct == old(direct) - 1
    {
      if scheduled {
        phase := Finishing;
      } else {
        direct := direct - 1;
      }
      ReleaseWork();
    }

    /** The wrapper's own finally: the next scheduled run may start before this one has let go. */
    method FinishWrapper()
      requires Valid() && phase.Finishing?
      modifies this`scheduledRunning, this`phase, this`leaving
      ensures Valid() && Model() == old(Model()) && leaving == old(leaving) + 1 && phase.Idle?
    {
      scheduledRunning := false;
      phase, leaving := Phase.Idle, leaving + 1;
    }

    method ReleaseWrapper()
      requires Valid() && leaving > 0
      modifies this`leaving, this`ownedWork, this`drained
      ensures Valid() && Model() == FinishOne(old(Model())) && leaving == old(leaving) - 1
    {
      leaving := leaving - 1;
      ReleaseWork();
    }

    /** Anything that can happen to the reconciler. */
    method Happens(e: ReconcilerEvent)
      requires Valid()
      modifies this
      ensures Valid() && Winds(old(Model()), Model()) && old(generation) <= generation
      ensures (e == Called(StopsForGood) ==> Model().stopped) && (e == Called(Joins) ==> drainRequested)
    {
      match e {
        case Called(call) => Obey(call);
        case IntervalFired(inside) => if intervals > 0 { Run(inside); }
        case DirectSweepSettles => if direct > 0 { EndSweep(false); }
        case ScheduledSweepSettles => if phase.Sweeping? { EndSweep(true); }
        case WrapperFinishes => if phase.Finishing? { FinishWrapper(); }
        case WrapperReleases => if leaving > 0 { ReleaseWrapper(); }
      }
    }
  }
}
