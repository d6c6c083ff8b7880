/**
 What the facilitator client owns: tracked calls behind two flags, its own and its lifetime's, and the retry
 waits that the fence cancels. Every request passes a last check right before the transport is called.
 */
module FacilitatorOwnership {
  import opened Lifetimes

  /** Where a tracked call is suspended. Resuming: its retry timer has fired. Done: its promise is settled. */
  datatype CallState = Headers | Attempting(attempt: nat) | Asleep(attempt: nat) | Resuming(attempt: nat) | Done

  /** What supplied code (clocks, timers, signals, authentication) may do while it is being called. */
  datatype Reentry = StopsClient | DrainsClient

  /** A redirect that is followed, a 429 to a capability request, or any other answer or failure. */
  datatype Reply = Redirected | RateLimited | Final

  datatype FacilitatorEvent =
    | CallBegins(inside: seq<Reentry>)
    | HeadersArrive(call: nat, inside: seq<Reentry>)
    | ReplyArrives(call: nat, reply: Reply, inside: seq<Reentry>)
    | RetryTimerFires(call: nat)
    | CallResumes(call: nat, inside: seq<Reentry>)
    | CallSettles(call: nat)
    | ClientStops
    | ClientDrains

  const MAXIMUM_RETRIES: nat := 2

  /** The first attempt is number 0; only an attempt before the last one is followed by a wait. */
  predicate AttemptsBounded(state: CallState) {
    match state
    case Attempting(attempt) => attempt <= MAXIMUM_RETRIES
    case Asleep(attempt) => attempt < MAXIMUM_RETRIES
    case Resuming(attempt) => attempt < MAXIMUM_RETRIES
    case _ => true
  }

  lemma Dropped(calls: map<nat, CallState>, call: nat)
    requires call in calls
    ensures |calls - {call}| == |calls| - 1
  {
    assert (calls - {call}).Keys == calls.Keys - {call};
  }

  class RoundWatchFacilitator {
    const lifetime: ApplicationLifetime
    var stopped: bool
    var calls: map<nat, CallState>
    var nextCall: nat
    var retryWaits: set<nat>
    ghost var sent: nat

    function Model(): Owner
      reads lifetime
    {
      lifetime.Model()
    }

    ghost predicate Valid()
      reads this, lifetime
    {
      && Sound(lifetime.Model()) && stopped == lifetime.stopped
      && lifetime.pending == |calls|
      && (forall c <- calls :: c < nextCall && AttemptsBounded(calls[c]))
      && (forall c :: c in retryWaits <==> c in calls && calls[c].Asleep?)
      && (stopped ==> retryWaits == {})
    }

    /** A resolved drain: no call is left, not even one asleep before a retry. */
    lemma DrainedMeansIdle()
      requires Valid() && lifetime.drained
      ensures stopped && calls == map[] && retryWaits == {}
    {
    }

    /** Behind the fence nothing is sent. */
    twostate predicate Quiet()
      reads this, lifetime
    {
      && Winds(old(Model()), Model()) && (old(stopped) ==> stopped)
      && old(sent) <= sent && (old(stopped) ==> sent == old(sent))
    }

    constructor ()
      ensures Valid() && Model() == Idle() && fresh(lifetime) && !stopped
    {
      lifetime := new ApplicationLifetime();
      stopped, calls, nextCall, retryWaits, sent := false, map[], 0, {}, 0;
    }

    /** The fence: both flags go up, and every retry wait is cancelled. */
    method StopAdmission()
      requires Valid()
      modifies this`stopped, this`calls, this`retryWaits, lifetime`stopped
      ensures Valid() && Quiet() && stopped && Model() == Fence(old(Model()))
      ensures calls.Keys == old(calls).Keys
      ensures forall c <- calls :: calls[c] == if old(calls)[c].Asleep? then Done else old(calls)[c]
    {
      stopped := true;
      lifetime.StopAdmission();
      CancelWaits();
    }

    method CancelWaits()
      requires forall c :: c in retryWaits <==> c in calls && calls[c].Asleep?
      modifies this`calls, this`retryWaits
      ensures retryWaits == {} && calls.Keys == old(calls).Keys && |calls| == |old(calls)|
      ensures forall c <- calls :: calls[c] == if old(calls)[c].Asleep? then Done else old(calls)[c]
    {
      while retryWaits != {}
        invariant calls.Keys == old(calls).Keys && |calls| == |old(calls)|
        invariant forall c :: c in retryWaits <==> c in calls && calls[c].Asleep?
        invariant forall c <- calls :: calls[c] == old(calls)[c] || (old(calls)[c].Asleep? && calls[c].Done?)
        decreases |retryWaits|
      {
        var call :| call in retryWaits;
        Cancel(call);
      }
    }

    method Cancel(call: nat)
      requires call in calls
      modifies this`calls, this`retryWaits
      ensures calls == old(calls)[call := Done] && retryWaits == old(retryWaits) - {call} && |calls| == |old(calls)|
    {
      retryWaits := retryWaits - {call};
      Set(call, Done);
    }

    method Set(call: nat, state: CallState)
      requires call in calls
      modifies this`calls
      ensures calls == old(calls)[call := state] && |calls| == |old(calls)|
    {
      assert calls[call := state].Keys == calls.Keys;
      calls := calls[call := state];
    }

    method Drain()
      requires Valid()
      modifies this`stopped, this`calls, this`retryWaits, lifetime
      ensures Valid() && Quiet() && stopped && Model() == DrainAll(old(Model()))
      ensures calls.Keys == old(calls).Keys
      ensures forall c <- calls :: calls[c] == if old(calls)[c].Asleep? then Done else old(calls)[c]
    {
      StopAdmission();
      lifetime.Drain();
    }

    method RunScript(inside: seq<Reentry>)
      requires Valid()
      modifies this`stopped, this`calls, this`retryWaits, lifetime
      ensures Valid() && Quiet() && calls.Keys == old(calls).Keys
      ensures stopped == (old(stopped) || inside != []) && lifetime.pending == old(lifetime.pending)
      ensures forall c <- calls :: calls[c] == if !old(stopped) && stopped && old(calls)[c].Asleep? then Done else old(calls)[c]
    {
      var i := 0;
      while i < |inside|
        invariant 0 <= i <= |inside| && Valid() && Quiet() && calls.Keys == old(calls).Keys
        invariant stopped == (old(stopped) || i > 0) && lifetime.pending == old(lifetime.pending)
        invariant forall c <- calls :: calls[c] == if !old(stopped) && stopped && old(calls)[c].Asleep? then Done else old(calls)[c]
      {
        match inside[i] {
          case StopsClient => StopAdmission();
          case DrainsClient => Drain();
        }
        i := i + 1;
      }
    }

    /** verify, settle and getSupported: owned before anything runs, refused behind the fence. */
    method Begin(inside: seq<Reentry>) returns (admitted: bool)
      requires Valid()
      modifies this, lifetime
      ensures Valid() && Quiet() && sent == old(sent)
      ensures admitted == !old(stopped) && (admitted ==> |calls| == |old(calls)| + 1)
      ensures !admitted ==> calls == old(calls) && Model() == old(Model())
      ensures admitted ==> old(nextCall) !in old(calls) && calls.Keys == old(calls).Keys + {old(nextCall)} && calls[old(nextCall)] == Headers
      ensures inside == [] && admitted ==> calls == old(calls)[old(nextCall) := Headers] && Model() == Admit(old(Model()))
    {
      admitted := lifetime.Track([]);
      if !admitted {
        return;
      }
      Register();
      RunScript(inside);
      assert |calls.Keys| == |calls|;
    }

    method Register()
      requires forall c <- calls :: c < nextCall
      modifies this`calls, this`nextCall
      ensures nextCall == old(nextCall) + 1 && calls == old(calls)[old(nextCall) := Headers] && |calls| == |old(calls)| + 1
    {
      assert nextCall !in calls;
      assert calls[nextCall := Headers].Keys == calls.Keys + {nextCall};
      calls := calls[nextCall := Headers];
      nextCall := nextCall + 1;
    }

    /** The last synchronous check before the transport: only an open client sends. */
    method Send(call: nat, attempt: nat)
      requires Valid() && call in calls && !calls[call].Asleep? && attempt <= MAXIMUM_RETRIES
      modifies this`calls, this`sent
      ensures Valid() && Quiet() && sent == old(sent) + (if stopped then 0 else 1)
      ensures calls == old(calls)[call := if stopped then Done else Attempting(attempt)]
    {
      if stopped {
        Set(call, Done);
      } else {
        sent := sent + 1;
        Set(call, Attempting(attempt));
      }
    }

    /** attempt(): the admission check, then a signal whose creation may itself shut the client down. */
    method Attempt(call: nat, attempt: nat, inside: seq<Reentry>)
      requires Valid() && call in calls && (calls[call].Headers? || calls[call].Resuming?) && attempt <= MAXIMUM_RETRIES
      modifies this`stopped, this`calls, this`retryWaits, this`sent, lifetime
      ensures Valid() && Quiet() && calls.Keys == old(calls).Keys
      ensures calls[call] == if stopped then Done else Attempting(attempt)
      ensures stopped == (old(stopped) || inside != []) && sent == old(sent) + (if stopped then 0 else 1)
    {
      if stopped {
        Set(call, Done);
        return;
      }
      RunScript(inside);
      Send(call, attempt);
    }

    method HandleReply(call: nat, reply: Reply, inside: seq<Reentry>)
      requires Valid() && call in calls && calls[call].Attempting?
      modifies this`stopped, this`calls, this`retryWaits, this`sent, lifetime
      ensures Valid() && Quiet() && calls.Keys == old(calls).Keys
      ensures reply.Final? ==> calls == old(calls)[call := Done] && sent == old(sent) && stopped == old(stopped)
      // A redirect is followed within the same attempt; a wait sends nothing until its timer has fired.
      ensures reply.Redirected? ==> calls == old(calls)[call := if stopped then Done else old(calls)[call]] && stopped == old(stopped)
      ensures reply.Redirected? ==> sent == old(sent) + (if stopped then 0 else 1)
      ensures reply.RateLimited? ==> sent == old(sent)
      ensures reply.RateLimited? ==> calls[call] == if stopped || old(calls)[call].attempt == 2 then Done else Asleep(old(calls)[call].attempt)
    {
      var attempt := calls[call].attempt;
      match reply {
        case Redirected => Send(call, attempt);
        case Final => Set(call, Done);
        case RateLimited =>
          if attempt == MAXIMUM_RETRIES || stopped {
            Set(call, Done);
          } else {
            WaitToRetry(call, attempt, inside);
          }
      }
    }

    /** The wait is registered before its timer is created, because creating the timer may raise the fence. */
    method WaitToRetry(call: nat, attempt: nat, inside: seq<Reentry>)
      requires Valid() && call in calls && !stopped && calls[call] == Attempting(attempt) && attempt < MAXIMUM_RETRIES
      modifies this`stopped, this`calls, this`retryWaits, lifetime
      ensures Valid() && Quiet() && calls.Keys == old(calls).Keys
      ensures calls[call] == if stopped then Done else Asleep(attempt)
      ensures stopped == (inside != [])
    {
      Set(call, Asleep(attempt));
      retryWaits := retryWaits + {call};
      RunScript(inside);
    }

    method RetryTimer(call: nat)
      requires Valid() && call in retryWaits
      modifies this`calls, this`retryWaits
      ensures Valid() && Quiet() && calls == old(calls)[call := Resuming(old(calls)[call].attempt)]
    {
      retryWaits := retryWaits - {call};
      Set(call, Resuming(calls[call].attempt));
    }

    /** The tracked promise settles, and the lifetime lets go of it. */
    method Settle(call: nat)
      requires Valid() && call in calls && calls[call].Done?
      modifies this`calls, lifetime`pending, lifetime`drained
      ensures Valid() && Quiet() && Model() == FinishOne(old(Model())) && calls == old(calls) - {call}
    {
      Dropped(calls, call);
      calls := calls - {call};
      lifetime.Release();
    }

    /** Anything that can happen to the client. */
    method Happens(e: FacilitatorEvent)
      requires Valid()
      modifies this, lifetime
      ensures Valid() && Quiet() && (e.ClientStops? ==> Model().stopped) && (e.ClientDrains? ==> Model().drainRequested)
      ensures e.HeadersArrive? && e.call in old(calls) && old(calls)[e.call].Headers? ==>
                e.call in calls && calls[e.call] == if stopped then Done else Attempting(0)
      ensures e.CallResumes? && e.call in old(calls) && old(calls)[e.call].Resuming? ==>
                e.call in calls && calls[e.call] == if stopped then Done else Attempting(old(calls)[e.call].attempt + 1)
    {
      match e {
        case CallBegins(inside) => var admitted := Begin(inside);
        case HeadersArrive(call, inside) => if call in calls && calls[call].Headers? { Attempt(call, 0, inside); }
        case ReplyArrives(call, reply, inside) => if call in calls && calls[call].Attempting? { HandleReply(call, reply, inside); }
        case RetryTimerFires(call) => if call in retryWaits { RetryTimer(call); }
        case CallResumes(call, inside) => if call in calls && calls[call].Resuming? { Attempt(call, calls[call].attempt + 1, inside); }
        case CallSettles(call) => if call in calls && calls[call].Done? { Settle(call); }
        case ClientStops => StopAdmission();
        case ClientDrains => Drain();
      }
    }
  }
}
