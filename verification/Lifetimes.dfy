/**
 Owned work with a terminal fence and a drain: what the application, the facilitator client, the
 poller, the reconciler, the health probe and the dispatcher each promise the shutdown coordinator.
 */
module Lifetimes {
  import opened Common

  datatype Owner = Owner(stopped: bool, pending: nat, drainRequested: bool, drained: bool)

  function Idle(): Owner { Owner(false, 0, false, false) }

  function Fence(o: Owner): Owner { o.(stopped := true) }

  function Admit(o: Owner): Owner { if o.stopped then o else o.(pending := o.pending + 1) }

  function FinishOne(o: Owner): Owner {
    if o.pending == 0 then o
    else o.(pending := o.pending - 1, drained := o.drained || (o.drainRequested && o.pending == 1))
  }

  function DrainAll(o: Owner): Owner {
    o.(stopped := true, drainRequested := true, drained := o.drained || o.pending == 0)
  }

  /** A resolved drain is proof: the fence is up and no work is left. An unresolved one is owed nothing else. */
  predicate Sound(o: Owner) {
    && (o.drainRequested ==> o.stopped)
    && (o.drained <==> o.drainRequested && o.pending == 0)
  }

  /** Fences and resolved drains are final; behind a fence work can only finish. */
  predicate Winds(o: Owner, later: Owner) {
    && (o.stopped ==> later.stopped && later.pending <= o.pending)
    && (o.drainRequested ==> later.drainRequested)
    && (o.drained ==> later.drained && later.pending == 0)
  }

  datatype LifeEvent = Fences | Admits | Finishes | Drains

  function Live(o: Owner, e: LifeEvent): Owner {
    match e case Fences => Fence(o) case Admits => Admit(o) case Finishes => FinishOne(o) case Drains => DrainAll(o)
  }

  function LiveAll(o: Owner, events: seq<LifeEvent>): Owner
    decreases |events|
  {
    if events == [] then o else LiveAll(Live(o, events[0]), events[1..])
  }

  lemma LiveSound(o: Owner, e: LifeEvent)
    requires Sound(o)
    ensures Sound(Live(o, e)) && Winds(o, Live(o, e))
  {
  }

  /** Over any further life of an owner: once its drain has resolved, no work ever appears again. */
  lemma {:induction false} DrainedForGood(o: Owner, events: seq<LifeEvent>)
    requires Sound(o)
    ensures Sound(LiveAll(o, events)) && Winds(o, LiveAll(o, events))
    ensures o.drained ==> LiveAll(o, events) == o
    decreases |events|
  {
    if events != [] {
      LiveSound(o, events[0]);
      DrainedForGood(Live(o, events[0]), events[1..]);
    }
  }

  /** Sound and Winds say exactly what a life can do: whatever they allow, some sequence of events does. */
  lemma {:induction false} LifeReaches(o: Owner, later: Owner) returns (events: seq<LifeEvent>)
    requires Sound(o) && Sound(later) && Winds(o, later)
    ensures LiveAll(o, events) == later
    decreases if o.pending <= later.pending then later.pending - o.pending else o.pending - later.pending
  {
    if later.pending == o.pending {
      events := if later.drainRequested && !o.drainRequested then [Drains] else if later.stopped && !o.stopped then [Fences] else [];
      if events != [] { assert events[1..] == [] && LiveAll(Live(o, events[0]), []) == Live(o, events[0]); }
    } else {
      var first := if later.pending < o.pending then Finishes else Admits;
      var rest := LifeReaches(Live(o, first), later);
      events := [first] + rest;
      assert events[1..] == rest;
    }
  }

  /** A change of an owner is a life of it exactly when it stays sound and only winds down behind the fence. */
  lemma {:induction false} LivesExactly(o: Owner, later: Owner)
    requires Sound(o)
    ensures (exists events :: LiveAll(o, events) == later) <==> Sound(later) && Winds(o, later)
  {
    if Sound(later) && Winds(o, later) {
      var events := LifeReaches(o, later);
    }
    forall events | LiveAll(o, events) == later ensures Sound(later) && Winds(o, later) {
      DrainedForGood(o, events);
    }
  }

  lemma WindsTransitive(a: Owner, b: Owner, c: Owner)
    requires Winds(a, b) && Winds(b, c)
    ensures Winds(a, c)
  {
  }

  /** What a tracked operation does synchronously while it is being called. */
  datatype Reentry = StopsAdmission | DrainsLifetime | Tracks(inner: seq<Reentry>)

  datatype LifetimeEvent = Tracked(operation: seq<Reentry>) | Settled | AdmissionStops | DrainRequested

  /** ApplicationLifetime: a counter of tracked promises behind a stop flag. */
  class ApplicationLifetime {
    var stopped: bool
    var pending: nat
    var drainRequested: bool
    var drained: bool

    function Model(): Owner
      reads this
    {
      Owner(stopped, pending, drainRequested, drained)
    }

    constructor ()
      ensures Model() == Idle() && Sound(Model())
    {
      stopped, pending, drainRequested, drained := false, 0, false, false;
    }

    method StopAdmission()
      modifies this`stopped
      ensures Model() == Fence(old(Model()))
    {
      stopped := true;
    }

    /** Ownership is registered before the operation runs, so the operation itself may shut the lifetime down. */
    method Track(operation: seq<Reentry>) returns (admitted: bool)
      requires Sound(Model())
      modifies this
      ensures Sound(Model()) && admitted == !old(stopped)
      ensures !admitted ==> Model() == old(Model())
      ensures admitted ==> pending > old(pending) && (old(drainRequested) ==> drainRequested)
      ensures Winds(old(Model()), Model()) && (operation == [] ==> Model() == Admit(old(Model())))
      decreases operation
    {
      if stopped {
        return false;
      }
      pending := pending + 1;
      var i := 0;
      while i < |operation|
        invariant 0 <= i <= |operation|
        invariant Sound(Model()) && pending > old(pending) && !old(stopped)
        invariant old(drainRequested) ==> drainRequested
        invariant i == 0 ==> Model() == Admit(old(Model()))
      {
        match operation[i] {
          case StopsAdmission => StopAdmission();
          case DrainsLifetime => Drain();
          case Tracks(inner) => var nested := Track(inner);
        }
        i := i + 1;
      }
      return true;
    }

    /** The tracked promise settled. */
    method Release()
      requires Sound(Model()) && pending > 0
      modifies this`pending, this`drained
      ensures Sound(Model()) && Model() == FinishOne(old(Model()))
    {
      pending := pending - 1;
      if pending == 0 && drainRequested {
        drained := true;
      }
    }

    method Drain()
      requires Sound(Model())
      modifies this
      ensures Sound(Model()) && Model() == DrainAll(old(Model()))
    {
      StopAdmission();
      drainRequested := true;
      if pending == 0 {
        drained := true;
      }
    }

    /** Anything that can happen to a lifetime, from outside or when a tracked promise settles. */
    method Happens(e: LifetimeEvent)
      requires Sound(Model())
      modifies this
      ensures Sound(Model()) && Winds(old(Model()), Model())
      ensures (e.AdmissionStops? ==> stopped) && (e.DrainRequested? ==> drainRequested)
    {
      match e {
        case Tracked(operation) => var admitted := Track(operation);
        case Settled => if pending > 0 { Release(); }
        case AdmissionStops => StopAdmission();
        case DrainRequested => Drain();
      }
    }
  }
}
