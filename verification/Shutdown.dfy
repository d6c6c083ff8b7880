/**
 The shutdown coordinator over its owners: one terminal fence, one join, and a store that closes only when
 every owner has proved that it holds no more work. The owners are the modelled objects themselves: what they
 promise the coordinator is what their own counters, flags and drain resolvers do.

 Callbacks may throw, may shut down again, and owners keep admitting and finishing work between them.
 Error values are counted, not kept; messages are not part of this model.
 */
module Shutdown {
  import opened Common
  import opened Lifetimes
  import F = FacilitatorOwnership
  import P = PollerOwnership
  import R = ReconcilerOwnership
  import H = HealthProbe
  import D = Dispatcher
  import S = ServerClose

  datatype Name = Server | Application | Facilitator | Poller | Reconciler | HealthProbe | Dispatcher

  function Everyone(): set<Name> {
    {Server, Application, Facilitator, Poller, Reconciler, HealthProbe, Dispatcher}
  }

  lemma InEveryone(n: Name)
    ensures n in Everyone()
  {
    match n
    case Server => case Application => case Facilitator => case Poller => case Reconciler => case HealthProbe => case Dispatcher =>
  }

  /** The order in which the workers are fenced, and in which they are drained. */
  function Rank(n: Name): nat {
    match n
    case Application => 0
    case Facilitator => 1
    case Poller => 2
    case Reconciler => 3
    case HealthProbe => 4
    case Dispatcher => 5
    case Server => 6
  }

  datatype Status = Drained | DeadlineExceeded | OwnershipFailed

  /** What goes on around a callback: anything any owner or the server does, or another shutdown call. */
  datatype Happening =
    | InApplication(lifetime: LifetimeEvent)
    | InFacilitator(facilitator: F.FacilitatorEvent)
    | InPoller(poller: P.PollerEvent)
    | InReconciler(reconciler: R.ReconcilerEvent)
    | InProbe(probe: H.ProbeEvent)
    | InDispatcher(dispatcher: D.DispatcherEvent)
    | AtServer(server: S.ServerEvent)
    | ShutdownAgain

  /** The callbacks that throw; a throwing fence or drain may or may not have taken effect. */
  datatype Faults = Faults(fences: map<Name, bool>, sampler: bool, serverClose: bool, drains: map<Name, bool>, timer: bool)

  ghost predicate SomeFenceThrows(faults: Faults) {
    exists n: Name :: n != Server && n in faults.fences
  }

  ghost predicate SomeDrainThrows(faults: Faults) {
    exists n: Name :: n != Server && n in faults.drains
  }

  datatype Clearing = Cleared | ClearThrows | ClearFires

  // ---- The workers at one moment -----------------------------------------------------------

  datatype Owners = Owners(
    application: Owner, facilitator: Owner, poller: Owner, reconciler: Owner, healthProbe: Owner, dispatcher: Owner)

  function Of(os: Owners, n: Name): Owner
    requires n != Server
  {
    match n
    case Application => os.application
    case Facilitator => os.facilitator
    case Poller => os.poller
    case Reconciler => os.reconciler
    case HealthProbe => os.healthProbe
    case Dispatcher => os.dispatcher
  }

  ghost predicate AllSound(os: Owners) {
    forall n: Name | n != Server :: Sound(Of(os, n))
  }

  /** Every worker has only wound down since. */
  ghost predicate AllWind(os: Owners, later: Owners) {
    forall n: Name | n != Server :: Winds(Of(os, n), Of(later, n))
  }

  /** The first k workers are fenced, or have been asked to drain, whoever of them threw aside. */
  ghost predicate Fenced(os: Owners, k: nat, throwing: map<Name, bool>) {
    forall n: Name | n != Server && Rank(n) < k && n !in throwing :: Of(os, n).stopped
  }

  ghost predicate Draining(os: Owners, k: nat, throwing: map<Name, bool>) {
    forall n: Name | n != Server && Rank(n) < k && n !in throwing :: Of(os, n).drainRequested
  }

  /** Every worker whose join has settled has proved that its work is over. */
  ghost predicate Joined(os: Owners, pending: set<Name>) {
    forall n: Name | n != Server && n !in pending :: Of(os, n).drained
  }

  lemma AllWindTransitive(a: Owners, b: Owners, c: Owners)
    requires AllWind(a, b) && AllWind(b, c)
    ensures AllWind(a, c)
  {
    forall n: Name | n != Server ensures Winds(Of(a, n), Of(c, n)) {
      WindsTransitive(Of(a, n), Of(b, n), Of(c, n));
    }
  }

  function With(os: Owners, n: Name, o: Owner): Owners
    requires n != Server
  {
    match n
    case Application => os.(application := o)
    case Facilitator => os.(facilitator := o)
    case Poller => os.(poller := o)
    case Reconciler => os.(reconciler := o)
    case HealthProbe => os.(healthProbe := o)
    case Dispatcher => os.(dispatcher := o)
  }

  /** When one worker winds and the others stand still, all wind. */
  lemma OneMoves(os: Owners, later: Owners, name: Name)
    requires AllSound(os) && name != Server && later == With(os, name, Of(later, name))
    requires Winds(Of(os, name), Of(later, name))
    ensures AllWind(os, later)
  {
    forall n: Name | n != Server ensures Winds(Of(os, n), Of(later, n)) {
      if n != name {
        assert Of(os, n) == Of(later, n) && Sound(Of(os, n));
      }
    }
  }

  lemma NothingMoves(os: Owners)
    requires AllSound(os)
    ensures AllWind(os, os)
  {
    forall n: Name | n != Server ensures Winds(Of(os, n), Of(os, n)) { assert Sound(Of(os, n)); }
  }

  /** The coordinator's two calls on a worker are events of that worker like any other. */
  function FenceOf(n: Name): Happening
    requires n != Server
  {
    match n
    case Application => InApplication(AdmissionStops)
    case Facilitator => InFacilitator(F.ClientStops)
    case Poller => InPoller(P.Called(P.StopsForGood))
    case Reconciler => InReconciler(R.Called(R.StopsForGood))
    case HealthProbe => InProbe(H.ProbeStops)
    case Dispatcher => InDispatcher(D.Told(D.Stops))
  }

  function DrainOf(n: Name): Happening
    requires n != Server
  {
    match n
    case Application => InApplication(DrainRequested)
    case Facilitator => InFacilitator(F.ClientDrains)
    case Poller => InPoller(P.Called(P.Joins))
    case Reconciler => InReconciler(R.Called(R.Joins))
    case HealthProbe => InProbe(H.ProbeDrains)
    case Dispatcher => InDispatcher(D.Told(D.Drains))
  }

  /** A worker told to stop has stopped; one asked to drain has taken the request. */
  predicate Heeded(h: Happening, os: Owners) {
    match h
    case InApplication(e) => (e.AdmissionStops? ==> os.application.stopped) && (e.DrainRequested? ==> os.application.drainRequested)
    case InFacilitator(e) => (e.ClientStops? ==> os.facilitator.stopped) && (e.ClientDrains? ==> os.facilitator.drainRequested)
    case InPoller(e) => (e == P.Called(P.StopsForGood) ==> os.poller.stopped) && (e == P.Called(P.Joins) ==> os.poller.drainRequested)
    case InReconciler(e) =>
      (e == R.Called(R.StopsForGood) ==> os.reconciler.stopped) && (e == R.Called(R.Joins) ==> os.reconciler.drainRequested)
    case InProbe(e) => (e.ProbeStops? ==> os.healthProbe.stopped) && (e.ProbeDrains? ==> os.healthProbe.drainRequested)
    case InDispatcher(e) => (e == D.Told(D.Stops) ==> os.dispatcher.stopped) && (e == D.Told(D.Drains) ==> os.dispatcher.drainRequested)
    case _ => true
  }

  lemma Told(n: Name, os: Owners)
    requires n != Server
    ensures Heeded(FenceOf(n), os) ==> Of(os, n).stopped
    ensures Heeded(DrainOf(n), os) ==> Of(os, n).drainRequested
  {
  }

  lemma EachSound(os: Owners)
    requires Sound(os.application) && Sound(os.facilitator) && Sound(os.poller)
    requires Sound(os.reconciler) && Sound(os.healthProbe) && Sound(os.dispatcher)
    ensures AllSound(os)
  {
    hide Sound;
    forall n: Name | n != Server ensures Sound(Of(os, n)) {
      match n
      case Application => case Facilitator => case Poller => case Reconciler => case HealthProbe => case Dispatcher =>
    }
  }

  /** What is fenced, draining or joined stays so; joined workers do not even change any more. */
  lemma MilestonesKept(os: Owners, later: Owners, k: nat, throwing: map<Name, bool>, pending: set<Name>)
    requires AllWind(os, later)
    ensures Fenced(os, k, throwing) ==> Fenced(later, k, throwing)
    ensures Draining(os, k, throwing) ==> Draining(later, k, throwing)
    ensures Joined(os, pending) ==> Joined(later, pending)
  {
    hide Rank, Of;
  }

  lemma NextMilestone(os: Owners, later: Owners, name: Name, throwing: map<Name, bool>)
    requires AllWind(os, later) && name != Server
    ensures Fenced(os, Rank(name), throwing) && (name in throwing || Of(later, name).stopped) ==> Fenced(later, Rank(name) + 1, throwing)
    ensures Draining(os, Rank(name), throwing) && (name in throwing || Of(later, name).drainRequested)
            ==> Draining(later, Rank(name) + 1, throwing)
  {
    MilestonesKept(os, later, Rank(name), throwing, {});
    hide AllWind, Of;
  }

  lemma NobodyYet(os: Owners, faults: Faults)
    ensures Fenced(os, 0, faults.fences) && Draining(os, 0, faults.drains) && Joined(os, Everyone())
  {
    forall n: Name ensures n in Everyone() { InEveryone(n); }
  }

  /** Without an exception from any of them, every worker has taken the request, and is fenced by it. */
  lemma DrainingFences(os: Owners, faults: Faults)
    requires AllSound(os) && Draining(os, 6, faults.drains) && !SomeDrainThrows(faults)
    ensures Draining(os, 6, map[]) && Fenced(os, 6, map[])
  {
  }

  /** Once every worker has been joined, no later life changes any of them. */
  lemma JoinedForGood(os: Owners, later: Owners)
    requires AllSound(os) && AllSound(later) && AllWind(os, later) && Joined(os, {})
    ensures os == later
  {
    assert forall n: Name | n != Server :: Sound(Of(os, n)) && Sound(Of(later, n)) && Winds(Of(os, n), Of(later, n)) && Of(os, n).drained;
    assert Of(os, Application) == Of(later, Application) && Of(os, Facilitator) == Of(later, Facilitator);
    assert Of(os, Poller) == Of(later, Poller) && Of(os, Reconciler) == Of(later, Reconciler);
    assert Of(os, HealthProbe) == Of(later, HealthProbe) && Of(os, Dispatcher) == Of(later, Dispatcher);
  }

  /** Whose callback threw instead of handing over a promise to join. */
  ghost predicate ThrewExactly(thrown: set<Name>, faults: Faults) {
    forall n: Name :: n in thrown <==> if n == Server then faults.serverClose else n in faults.drains
  }

  ghost predicate MoreThrew(before: set<Name>, thrown: set<Name>, faults: Faults) {
    forall n: Name :: n in thrown <==> n in before || (n != Server && n in faults.drains)
  }

  lemma AllThrew(before: set<Name>, thrown: set<Name>, faults: Faults)
    requires before == (if faults.serverClose then {Server} else {}) && MoreThrew(before, thrown, faults)
    ensures ThrewExactly(thrown, faults)
  {
  }

  lemma ThrownIsUnproven(thrown: set<Name>, faults: Faults)
    requires ThrewExactly(thrown, faults) && thrown != {}
    ensures faults.serverClose || SomeDrainThrows(faults)
  {
    var n :| n in thrown;
  }

  /** The server's close has been called, and its promise is settled by nothing but that call or its callback. */
  predicate Answers(promise: S.ClosePromise, created: bool, closing: S.Closing) {
    && !promise.NotCalled? && (promise.Incomplete? <==> created && closing.ThrowsOther?)
    && (!created ==> promise.Fulfilled? || promise.Failed?)
  }

  // ---- The coordinator ---------------------------------------------------------------------

  class ShutdownCoordinator {
    const application: ApplicationLifetime
    const facilitator: F.RoundWatchFacilitator
    const poller: P.RoundWatchPoller
    const reconciler: R.RoundWatchReconciler
    const healthProbe: H.IndexerHealthProbe
    const dispatcher: D.IndexerRequestDispatcher
    const server: S.NodeServer
    var requested: bool
    var completed: bool
    var pending: set<Name>
    var thrown: set<Name>
    var errors: nat
    var ownershipUnproven: bool
    var deadlineArmed: bool
    var concluded: bool
    var result: Option<Status>
    var exitCode: nat
    var closes: nat
    var terminations: nat
    ghost var clearingFired: bool

    ghost predicate OwnersValid()
      reads application, facilitator, facilitator.lifetime, poller, reconciler, healthProbe, dispatcher, server
    {
      && application != facilitator.lifetime
      && Sound(application.Model()) && facilitator.Valid() && poller.Valid() && reconciler.Valid()
      && healthProbe.Valid() && dispatcher.Steady() && server.Valid()
    }

    /** The six workers as owners, read off the objects. */
    ghost function Now(): Owners
      reads application, facilitator.lifetime, poller, reconciler, healthProbe, dispatcher
    {
      Owners(application.Model(), facilitator.Model(), poller.Model(), reconciler.Model(), healthProbe.Model(), dispatcher.Model())
    }

    lemma OwnersSound()
      requires OwnersValid()
      ensures AllSound(Now())
    {
      hide D.IndexerRequestDispatcher.Booked, D.IndexerRequestDispatcher.Answered;
      dispatcher.StaysSound();
      EachSound(Now());
    }

    /** A worker's drain promise has resolved; the server's close promise has settled with its boundary. */
    ghost predicate HasSettled(name: Name)
      reads application, facilitator.lifetime, poller, reconciler, healthProbe, dispatcher, server
    {
      if name == Server then server.promise.Fulfilled? || server.promise.Failed? else Of(Now(), name).drained
    }

    ghost predicate Books()
      reads this
    {
      && (!requested ==> && pending == {} && thrown == {} && !completed && !concluded && !deadlineArmed
                         && closes == 0 && terminations == 0 && !clearingFired)
      && (thrown != {} ==> ownershipUnproven)
      && (concluded ==> pending == {} && completed)
      && (completed <==> result.Some?)
      && closes <= 1 && terminations <= 1
      && (closes == 1 ==> concluded && !ownershipUnproven)
      && (terminations == 1 <==> completed && result != Some(Drained))
      && (result == Some(Drained) ==> closes == 1 && (exitCode == 0 <==> errors == 0))
      && (completed && result != Some(Drained) ==> exitCode == 1)
      && (clearingFired ==> concluded && result == Some(DeadlineExceeded))
      && (closes == 1 && terminations == 1 <==> closes == 1 && clearingFired)
    }

    /** Unless ownership is unproven, every worker drains and every settled join was proof. */
    ghost predicate Proved()
      reads this`requested, this`ownershipUnproven, this`pending
      reads application, facilitator.lifetime, poller, reconciler, healthProbe, dispatcher, server
    {
      && (!requested ==> server.promise.NotCalled?)
      && (requested && !ownershipUnproven ==>
            && Draining(Now(), 6, map[]) && Joined(Now(), pending)
            && !server.promise.NotCalled? && (Server !in pending ==> HasSettled(Server)))
    }

    ghost predicate Valid()
      reads this, application, facilitator, facilitator.lifetime, poller, reconciler, healthProbe, dispatcher, server
    {
      OwnersValid() && Books() && Proved()
    }

    /**
     From the moment the store closes, no owner holds any work: no tracked request, no facilitator call, no sweep
     or wrapper of either worker, no probe, no queued or dispatched Indexer request; and no socket, unless the
     server's close threw at once that nothing was running.
     */
    lemma ClosedMeansNoWork()
      requires Valid() && closes == 1
      ensures forall n: Name | n != Server :: Of(Now(), n).stopped && Of(Now(), n).drained && Of(Now(), n).pending == 0
      ensures application.pending == 0
      ensures facilitator.calls == map[] && facilitator.retryWaits == {}
      ensures poller.direct == 0 && poller.phase.Idle? && !poller.armed
      ensures reconciler.direct == 0 && reconciler.phase.Idle? && reconciler.leaving == 0
      ensures healthProbe.pending.None?
      ensures dispatcher.queue == [] && dispatcher.running == {}
      ensures server.threwNotRunning || (!server.listening && server.sockets == 0)
    {
      hide D.IndexerRequestDispatcher.Booked, D.IndexerRequestDispatcher.Answered, D.IndexerRequestDispatcher.TimersKnown;
      OwnersSound();
      assert pending == {};
      assert Of(Now(), Application).drained && Of(Now(), Facilitator).drained && Of(Now(), Poller).drained;
      assert Of(Now(), Reconciler).drained && Of(Now(), HealthProbe).drained && Of(Now(), Dispatcher).drained;
      facilitator.DrainedMeansIdle();
      poller.DrainedMeansIdle();
      reconciler.DrainedMeansIdle();
      healthProbe.DrainedMeansIdle();
      dispatcher.DrainedMeansIdle();
      server.SettledMeansClosed();
    }

    constructor (application: ApplicationLifetime, facilitator: F.RoundWatchFacilitator, poller: P.RoundWatchPoller,
                 reconciler: R.RoundWatchReconciler, healthProbe: H.IndexerHealthProbe,
                 dispatcher: D.IndexerRequestDispatcher, server: S.NodeServer)
      requires application != facilitator.lifetime
      requires Sound(application.Model()) && facilitator.Valid() && poller.Valid() && reconciler.Valid()
      requires healthProbe.Valid() && dispatcher.Steady() && server.Valid() && server.promise.NotCalled?
      ensures Valid() && !requested
      ensures this.application == application && this.facilitator == facilitator && this.poller == poller
      ensures this.reconciler == reconciler && this.healthProbe == healthProbe && this.dispatcher == dispatcher
      ensures this.server == server
    {
      this.application, this.facilitator, this.poller := application, facilitator, poller;
      this.reconciler, this.healthProbe, this.dispatcher, this.server := reconciler, healthProbe, dispatcher, server;
      requested, completed, pending, thrown, errors := false, false, {}, {}, 0;
      ownershipUnproven, deadlineArmed, concluded := false, false, false;
      result, exitCode, closes, terminations, clearingFired := None, 0, 0, 0, false;
    }

    /** What lives around the coordinator only winds down behind the fences, and settled promises stay settled. */
    twostate predicate OnlyLived()
      reads this`requested, application, facilitator, facilitator.lifetime, poller, reconciler, healthProbe, dispatcher, server
    {
      OwnersValid() && AllWind(old(Now()), Now()) && ServerKept()
    }

    twostate predicate ServerKept()
      reads this`requested, server
    {
      && (requested ==> server.created == old(server.created))
      && (server.promise.NotCalled? <==> old(server.promise).NotCalled?)
      && (server.promise.Incomplete? <==> old(server.promise).Incomplete?)
      && (old(server.promise).Fulfilled? || old(server.promise).Failed? ==> server.promise.Fulfilled? || server.promise.Failed?)
    }

    method ApplicationLives(e: LifetimeEvent)
      requires OwnersValid()
      modifies application
      ensures OnlyLived() && Heeded(InApplication(e), Now())
    {
      OwnersSound();
      hide AllSound, AllWind, Winds, Sound, S.NodeServer.Valid;
      hide F.RoundWatchFacilitator.Valid, P.RoundWatchPoller.Valid, R.RoundWatchReconciler.Valid;
      hide H.IndexerHealthProbe.Valid, D.IndexerRequestDispatcher.Steady;
      application.Happens(e);
      OneMoves(old(Now()), Now(), Application);
    }

    method FacilitatorLives(e: F.FacilitatorEvent)
      requires OwnersValid()
      modifies facilitator, facilitator.lifetime
      ensures OnlyLived() && Heeded(InFacilitator(e), Now())
    {
      OwnersSound();
      hide AllSound, AllWind, Winds, Sound, S.NodeServer.Valid;
      hide F.RoundWatchFacilitator.Valid, P.RoundWatchPoller.Valid, R.RoundWatchReconciler.Valid;
      hide H.IndexerHealthProbe.Valid, D.IndexerRequestDispatcher.Steady;
      facilitator.Happens(e);
      OneMoves(old(Now()), Now(), Facilitator);
    }

    method PollerLives(e: P.PollerEvent)
      requires OwnersValid()
      modifies poller
      ensures OnlyLived() && Heeded(InPoller(e), Now())
    {
      OwnersSound();
      hide AllSound, AllWind, Winds, Sound, S.NodeServer.Valid;
      hide F.RoundWatchFacilitator.Valid, P.RoundWatchPoller.Valid, R.RoundWatchReconciler.Valid;
      hide H.IndexerHealthProbe.Valid, D.IndexerRequestDispatcher.Steady;
      poller.Happens(e);
      OneMoves(old(Now()), Now(), Poller);
    }

    method ReconcilerLives(e: R.ReconcilerEvent)
      requires OwnersValid()
      modifies reconciler
      ensures OnlyLived() && Heeded(InReconciler(e), Now())
    {
      OwnersSound();
      hide AllSound, AllWind, Winds, Sound, S.NodeServer.Valid;
      hide F.RoundWatchFacilitator.Valid, P.RoundWatchPoller.Valid, R.RoundWatchReconciler.Valid;
      hide H.IndexerHealthProbe.Valid, D.IndexerRequestDispatcher.Steady;
      reconciler.Happens(e);
      OneMoves(old(Now()), Now(), Reconciler);
    }

    method HealthProbeLives(e: H.ProbeEvent)
      requires OwnersValid()
      modifies healthProbe
      ensures OnlyLived() && Heeded(InProbe(e), Now())
    {
      OwnersSound();
      hide AllSound, AllWind, Winds, Sound, S.NodeServer.Valid;
      hide F.RoundWatchFacilitator.Valid, P.RoundWatchPoller.Valid, R.RoundWatchReconciler.Valid;
      hide H.IndexerHealthProbe.Valid, D.IndexerRequestDispatcher.Steady;
      healthProbe.Happens(e);
      OneMoves(old(Now()), Now(), HealthProbe);
    }

    method DispatcherLives(e: D.DispatcherEvent)
      requires OwnersValid()
      modifies dispatcher
      ensures OnlyLived() && Heeded(InDispatcher(e), Now())
    {
      OwnersSound();
      hide AllSound, AllWind, Winds, Sound, S.NodeServer.Valid;
      hide F.RoundWatchFacilitator.Valid, P.RoundWatchPoller.Valid, R.RoundWatchReconciler.Valid;
      hide H.IndexerHealthProbe.Valid, D.IndexerRequestDispatcher.Steady;
      dispatcher.Happens(e);
      OneMoves(old(Now()), Now(), Dispatcher);
    }

    method ServerLives(e: S.ServerEvent)
      requires OwnersValid() && (!requested ==> server.promise.NotCalled?)
      modifies server
      ensures OnlyLived()
      ensures server.threwNotRunning == old(server.threwNotRunning)
      ensures old(HasSettled(Server)) && !server.threwNotRunning ==> unchanged(server)
    {
      OwnersSound();
      NothingMoves(Now());
      hide Now, Of, AllSound, AllWind, Winds, Sound;
      hide F.RoundWatchFacilitator.Valid, P.RoundWatchPoller.Valid, R.RoundWatchReconciler.Valid;
      hide H.IndexerHealthProbe.Valid, D.IndexerRequestDispatcher.Steady;
      // The startup code asks whether a shutdown has begun before it creates or opens the server.
      if !requested || !(e.Created? || e.Listens?) {
        server.Happens(e);
      }
    }

    /** One event of one owner, of the server, or one more shutdown call while the first is under way. */
    method Happen(h: Happening)
      requires OwnersValid() && (!requested ==> server.promise.NotCalled?)
      modifies this`errors, application, facilitator, facilitator.lifetime, poller, reconciler, healthProbe, dispatcher, server
      ensures OnlyLived()
      ensures Heeded(h, Now())
      // One more shutdown call passes its error on, unless the first one has already reported its result.
      ensures errors == old(errors) + (if h.ShutdownAgain? && requested && !completed then 1 else 0)
    {
      OwnersSound();
      NothingMoves(Now());
      assert h.AtServer? || h.ShutdownAgain? ==> Heeded(h, Now());
      hide OwnersValid, Now, AllWind;
      match h {
        case InApplication(e) => ApplicationLives(e);
        case InFacilitator(e) => FacilitatorLives(e);
        case InPoller(e) => PollerLives(e);
        case InReconciler(e) => ReconcilerLives(e);
        case InProbe(e) => HealthProbeLives(e);
        case InDispatcher(e) => DispatcherLives(e);
        case AtServer(e) => ServerLives(e);
        case ShutdownAgain =>
          if requested && !completed {
            errors := errors + 1;
          }
      }
    }

    method Disturb(noise: seq<Happening>)
      requires OwnersValid() && (!requested ==> server.promise.NotCalled?)
      modifies this`errors, application, facilitator, facilitator.lifetime, poller, reconciler, healthProbe, dispatcher, server
      ensures OnlyLived() && errors >= old(errors)
    {
      OwnersSound();
      NothingMoves(Now());
      hide AllWind, OwnersValid, Now;
      var i := 0;
      while i < |noise|
        invariant 0 <= i <= |noise| && OnlyLived() && errors >= old(errors)
      {
        label Before:
        Happen(noise[i]);
        AllWindTransitive(old(Now()), old@Before(Now()), Now());
        i := i + 1;
      }
    }

    /** A callback that throws may have taken effect first. */
    method Half(takesEffect: bool, h: Happening, ghost from: Owners)
      requires OwnersValid() && requested && AllWind(from, Now())
      modifies this`errors, application, facilitator, facilitator.lifetime, poller, reconciler, healthProbe, dispatcher, server
      ensures OnlyLived() && AllWind(from, Now()) && errors >= old(errors)
    {
      OwnersSound();
      NothingMoves(Now());
      hide OwnersValid, AllWind, Now;
      if takesEffect {
        Happen(h);
        AllWindTransitive(from, old(Now()), Now());
      }
    }

    /** fence(): a callback that throws cannot prove that later ownership is bounded. */
    method RaiseFence(name: Name, faults: Faults, noise: seq<Happening>, ghost from: Owners)
      requires OwnersValid() && requested && name != Server && AllWind(from, Now())
      requires Fenced(Now(), Rank(name), faults.fences)
      modifies this`errors, this`ownershipUnproven, application, facilitator, facilitator.lifetime, poller, reconciler, healthProbe, dispatcher, server
      ensures OwnersValid() && AllWind(from, Now()) && ServerKept()
      ensures ownershipUnproven == (old(ownershipUnproven) || name in faults.fences)
      ensures Fenced(Now(), Rank(name) + 1, faults.fences)
      ensures errors >= old(errors) + (if name in faults.fences then 1 else 0)
    {
      hide OwnersValid, AllWind, Now, Fenced, HasSettled;
      Disturb(noise);
      AllWindTransitive(from, old(Now()), Now());
      MilestonesKept(old(Now()), Now(), Rank(name), faults.fences, {});
      label Disturbed:
      if name in faults.fences {
        Half(faults.fences[name], FenceOf(name), from);
        ownershipUnproven := true;
        errors := errors + 1;
      } else {
        Happen(FenceOf(name));
        AllWindTransitive(from, old@Disturbed(Now()), Now());
        Told(name, Now());
      }
      NextMilestone(old@Disturbed(Now()), Now(), name, faults.fences);
    }

    /** own(): a drain that throws leaves no lifetime to join, only a rejected promise. */
    method Own(name: Name, faults: Faults, noise: seq<Happening>, ghost from: Owners)
      requires OwnersValid() && requested && name != Server && AllWind(from, Now())
      requires Fenced(Now(), 6, faults.fences) && Draining(Now(), Rank(name), faults.drains)
      modifies this`errors, this`ownershipUnproven, this`thrown, application, facilitator, facilitator.lifetime, poller, reconciler, healthProbe, dispatcher, server
      ensures OwnersValid() && AllWind(from, Now()) && ServerKept()
      ensures ownershipUnproven == (old(ownershipUnproven) || name in faults.drains)
      ensures Fenced(Now(), 6, faults.fences) && Draining(Now(), Rank(name) + 1, faults.drains)
      ensures thrown == old(thrown) + (if name in faults.drains then {name} else {}) && errors >= old(errors)
    {
      hide OwnersValid, AllWind, Now, Fenced, Draining, HasSettled;
      Disturb(noise);
      AllWindTransitive(from, old(Now()), Now());
      MilestonesKept(old(Now()), Now(), Rank(name), faults.drains, {});
      label Disturbed:
      if name in faults.drains {
        Half(faults.drains[name], DrainOf(name), from);
        ownershipUnproven := true;
        thrown := thrown + {name};
      } else {
        Happen(DrainOf(name));
        AllWindTransitive(from, old@Disturbed(Now()), Now());
        Told(name, Now());
      }
      NextMilestone(old@Disturbed(Now()), Now(), name, faults.drains);
      AllWindTransitive(old(Now()), old@Disturbed(Now()), Now());
      MilestonesKept(old(Now()), Now(), 6, faults.fences, {});
    }

    method Terminate(status: Status)
      requires status != Drained
      modifies this`completed, this`result, this`exitCode, this`terminations
      ensures completed
      ensures old(completed) ==> result == old(result) && exitCode == old(exitCode) && terminations == old(terminations)
      ensures !old(completed) ==> result == Some(status) && exitCode == 1 && terminations == old(terminations) + 1
    {
      if completed {
        return;
      }
      completed := true;
      result, exitCode := Some(status), 1;
      terminations := terminations + 1;
    }

    function NoiseAt(noise: seq<seq<Happening>>, i: nat): seq<Happening> {
      if i < |noise| then noise[i] else []
    }

    /** shutdown(): every fence first, then the server, the deadline, and one join per owner. */
    method Shutdown(error: bool, faults: Faults, closing: S.Closing, noise: seq<seq<Happening>>)
      requires Valid()
      modifies this, application, facilitator, facilitator.lifetime, poller, reconciler, healthProbe, dispatcher, server
      ensures Valid() && requested
      ensures closes == old(closes)
      ensures old(requested) ==> pending == old(pending) && Now() == old(Now()) && terminations == old(terminations)
      ensures old(requested) ==> result == old(result) && errors == old(errors) + (if error && !completed then 1 else 0)
      ensures !old(requested) ==> FirstCall(error, faults, closing)
    {
      hide OwnersValid, Now, AllWind, Fenced, Draining, Joined, Everyone, NoiseAt, HasSettled;
      if requested {
        if error && !completed {
          errors := errors + 1;
        }
      } else {
        ShutdownFirst(error, faults, closing, noise);
      }
    }

    /** What the first call has done when it returns: nobody's exception keeps the others from being told. */
    twostate predicate FirstCall(error: bool, faults: Faults, closing: S.Closing)
      reads this, application, facilitator, facilitator.lifetime, poller, reconciler, healthProbe, dispatcher, server
    {
      && AllWind(old(Now()), Now()) && pending == Everyone() && !concluded
      && terminations == (if faults.timer then 1 else 0) && deadlineArmed == !faults.timer
      && completed == faults.timer && result == (if faults.timer then Some(OwnershipFailed) else None)
      && Fenced(Now(), 6, faults.fences) && Draining(Now(), 6, faults.drains) && ThrewExactly(thrown, faults)
      && (!faults.serverClose ==> Answers(server.promise, old(server.created), closing))
      && (ownershipUnproven <==> faults.sampler || faults.serverClose || SomeFenceThrows(faults) || SomeDrainThrows(faults))
      && (error || faults.timer || faults.sampler || SomeFenceThrows(faults) ==> errors > old(errors))
    }

    method ShutdownFirst(error: bool, faults: Faults, closing: S.Closing, noise: seq<seq<Happening>>)
      requires Valid() && !requested
      modifies this, application, facilitator, facilitator.lifetime, poller, reconciler, healthProbe, dispatcher, server
      ensures Valid() && requested && closes == old(closes) && FirstCall(error, faults, closing)
    {
      InEveryone(Server);
      hide OwnersValid, Now, AllWind, Fenced, Draining, Joined, Everyone, SomeFenceThrows, SomeDrainThrows, ThrewExactly;
      Publish(error);
      FenceAndDrain(faults, closing, noise);
      if thrown != {} {
        ThrownIsUnproven(thrown, faults);
      }
      if faults.timer {
        Terminate(OwnershipFailed);
      }
    }

    /** The shared latch goes up before any supplied callback runs. */
    method Publish(error: bool)
      requires OwnersValid() && Books() && !requested
      modifies this`requested, this`pending, this`errors, this`ownershipUnproven
      ensures OwnersValid() && requested && pending == Everyone() && !ownershipUnproven
      ensures errors == old(errors) + if error then 1 else 0
    {
      hide OwnersValid, Everyone;
      requested := true;
      if error {
        errors := errors + 1;
      }
      pending := Everyone();
      ownershipUnproven := false;
    }

    /** The synchronous body of the first shutdown call: fences, server close, deadline, joins. */
    method FenceAndDrain(faults: Faults, closing: S.Closing, noise: seq<seq<Happening>>)
      requires OwnersValid() && requested && server.promise.NotCalled?
      requires !ownershipUnproven && thrown == {} && !deadlineArmed
      modifies this`errors, this`ownershipUnproven, this`thrown, this`deadlineArmed, application, facilitator, facilitator.lifetime, poller, reconciler, healthProbe, dispatcher, server
      ensures OwnersValid() && AllWind(old(Now()), Now()) && deadlineArmed == !faults.timer
      ensures Fenced(Now(), 6, faults.fences) && Draining(Now(), 6, faults.drains) && ThrewExactly(thrown, faults)
      ensures Joined(Now(), Everyone()) && (ownershipUnproven || Draining(Now(), 6, map[]))
      ensures faults.serverClose || Answers(server.promise, old(server.created), closing)
      ensures ownershipUnproven <==> faults.sampler || faults.serverClose || SomeFenceThrows(faults) || SomeDrainThrows(faults)
      ensures errors >= old(errors) && (faults.timer || faults.sampler || SomeFenceThrows(faults) ==> errors > old(errors))
    {
      OwnersSound();
      NothingMoves(Now());
      ghost var from := Now();
      hide OwnersValid, Now, AllWind, Fenced, Draining, Joined, Everyone, AllSound, SomeFenceThrows, SomeDrainThrows;
      hide Answers, ThrewExactly, MoreThrew;
      FenceAndClose(faults, closing, noise, from);
      ghost var before := thrown;
      ArmAndDrain(faults, old(server.created), closing, noise, from);
      AllThrew(before, thrown, faults);
      NobodyYet(Now(), faults);
    }

    method FenceAndClose(faults: Faults, closing: S.Closing, noise: seq<seq<Happening>>, ghost from: Owners)
      requires OwnersValid() && requested && server.promise.NotCalled? && AllWind(from, Now())
      requires !ownershipUnproven && thrown == {}
      modifies this`errors, this`ownershipUnproven, this`thrown, application, facilitator, facilitator.lifetime, poller, reconciler, healthProbe, dispatcher, server
      ensures OwnersValid() && AllWind(from, Now()) && Fenced(Now(), 6, faults.fences)
      ensures thrown == if faults.serverClose then {Server} else {}
      ensures faults.serverClose || Answers(server.promise, old(server.created), closing)
      ensures ownershipUnproven <==> faults.sampler || faults.serverClose || SomeFenceThrows(faults)
      ensures errors >= old(errors) && (faults.sampler || SomeFenceThrows(faults) ==> errors > old(errors))
    {
      hide OwnersValid, Now, AllWind, Fenced, NoiseAt, SomeFenceThrows;
      RaiseFences(faults, noise, from);
      CloseServer(faults, closing, NoiseAt(noise, 7), from);
    }

    method ArmAndDrain(faults: Faults, ghost created: bool, ghost closing: S.Closing, noise: seq<seq<Happening>>, ghost from: Owners)
      requires OwnersValid() && requested && AllWind(from, Now()) && !deadlineArmed && Fenced(Now(), 6, faults.fences)
      modifies this`errors, this`ownershipUnproven, this`thrown, this`deadlineArmed, application, facilitator, facilitator.lifetime, poller, reconciler, healthProbe, dispatcher, server
      ensures OwnersValid() && AllWind(from, Now()) && ServerKept() && deadlineArmed == !faults.timer
      ensures Fenced(Now(), 6, faults.fences) && Draining(Now(), 6, faults.drains) && MoreThrew(old(thrown), thrown, faults)
      ensures ownershipUnproven <==> old(ownershipUnproven) || SomeDrainThrows(faults)
      ensures ownershipUnproven || Draining(Now(), 6, map[])
      ensures errors >= old(errors) + if faults.timer then 1 else 0
      ensures old(Answers(server.promise, created, closing)) ==> Answers(server.promise, created, closing)
    {
      hide OwnersValid, Now, AllWind, Fenced, Draining, AllSound, HasSettled, NoiseAt, SomeDrainThrows, MoreThrew;
      InstallDeadline(faults, NoiseAt(noise, 8), from);
      StartDrains(faults, noise, from);
      OwnersSound();
      if !ownershipUnproven {
        DrainingFences(Now(), faults);
      }
    }

    /** Every admission fence is up before the server is closed or any lifetime is joined. */
    method RaiseFences(faults: Faults, noise: seq<seq<Happening>>, ghost from: Owners)
      requires OwnersValid() && requested && !ownershipUnproven && AllWind(from, Now())
      modifies this`errors, this`ownershipUnproven, application, facilitator, facilitator.lifetime, poller, reconciler, healthProbe, dispatcher, server
      ensures OwnersValid() && AllWind(from, Now()) && ServerKept() && Fenced(Now(), 6, faults.fences)
      ensures ownershipUnproven <==> faults.sampler || SomeFenceThrows(faults)
      ensures errors >= old(errors) && (faults.sampler || SomeFenceThrows(faults) ==> errors > old(errors))
    {
      NobodyYet(Now(), faults);
      hide OwnersValid, Now, AllWind, Fenced, HasSettled, NoiseAt, OnlyLived;
      RaiseFence(Application, faults, NoiseAt(noise, 0), from);
      RaiseFence(Facilitator, faults, NoiseAt(noise, 1), from);
      RaiseFence(Poller, faults, NoiseAt(noise, 2), from);
      RaiseFence(Reconciler, faults, NoiseAt(noise, 3), from);
      RaiseFence(HealthProbe, faults, NoiseAt(noise, 4), from);
      RaiseFence(Dispatcher, faults, NoiseAt(noise, 5), from);
      StopSampler(faults, NoiseAt(noise, 6), from);
    }

    method StopSampler(faults: Faults, noise: seq<Happening>, ghost from: Owners)
      requires OwnersValid() && requested && AllWind(from, Now()) && Fenced(Now(), 6, faults.fences)
      modifies this`errors, this`ownershipUnproven, application, facilitator, facilitator.lifetime, poller, reconciler, healthProbe, dispatcher, server
      ensures OwnersValid() && AllWind(from, Now()) && ServerKept() && Fenced(Now(), 6, faults.fences)
      ensures ownershipUnproven == (old(ownershipUnproven) || faults.sampler)
      ensures errors >= old(errors) + if faults.sampler then 1 else 0
    {
      hide OwnersValid, Now, AllWind, Fenced, HasSettled;
      Disturb(noise);
      AllWindTransitive(from, old(Now()), Now());
      MilestonesKept(old(Now()), Now(), 6, faults.fences, {});
      if faults.sampler {
        ownershipUnproven := true;
        errors := errors + 1;
      }
    }

    /** own('server'): closing begins listener and socket shutdown; only its promise says they are done. */
    method CloseServer(faults: Faults, closing: S.Closing, noise: seq<Happening>, ghost from: Owners)
      requires OwnersValid() && requested && server.promise.NotCalled? && AllWind(from, Now()) && Fenced(Now(), 6, faults.fences)
      modifies this`errors, this`ownershipUnproven, this`thrown, application, facilitator, facilitator.lifetime, poller, reconciler, healthProbe, dispatcher, server
      ensures OwnersValid() && AllWind(from, Now()) && Fenced(Now(), 6, faults.fences) && errors >= old(errors)
      ensures ownershipUnproven == (old(ownershipUnproven) || faults.serverClose)
      ensures thrown == old(thrown) + if faults.serverClose then {Server} else {}
      ensures faults.serverClose || Answers(server.promise, old(server.created), closing)
    {
      hide OwnersValid, Now, AllWind, Fenced;
      Disturb(noise);
      AllWindTransitive(from, old(Now()), Now());
      MilestonesKept(old(Now()), Now(), 6, faults.fences, {});
      if faults.serverClose {
        ownershipUnproven := true;
        thrown := thrown + {Server};
      } else {
        CallClose(closing);
      }
    }

    method CallClose(closing: S.Closing)
      requires OwnersValid() && server.promise.NotCalled?
      modifies server
      ensures OwnersValid() && Now() == old(Now()) && server.created == old(server.created)
      ensures Answers(server.promise, server.created, closing)
    {
      hide F.RoundWatchFacilitator.Valid, P.RoundWatchPoller.Valid, R.RoundWatchReconciler.Valid;
      hide H.IndexerHealthProbe.Valid, D.IndexerRequestDispatcher.Steady;
      server.Close(closing);
    }

    method InstallDeadline(faults: Faults, noise: seq<Happening>, ghost from: Owners)
      requires OwnersValid() && requested && AllWind(from, Now()) && Fenced(Now(), 6, faults.fences)
      modifies this`errors, this`deadlineArmed, application, facilitator, facilitator.lifetime, poller, reconciler, healthProbe, dispatcher, server
      ensures OwnersValid() && AllWind(from, Now()) && ServerKept() && Fenced(Now(), 6, faults.fences)
      ensures deadlineArmed == if faults.timer then old(deadlineArmed) else true
      ensures errors >= old(errors) + if faults.timer then 1 else 0
    {
      hide OwnersValid, Now, AllWind, Fenced, HasSettled;
      Disturb(noise);
      AllWindTransitive(from, old(Now()), Now());
      MilestonesKept(old(Now()), Now(), 6, faults.fences, {});
      if faults.timer {
        errors := errors + 1;
      } else {
        deadlineArmed := true;
      }
    }

    method StartDrains(faults: Faults, noise: seq<seq<Happening>>, ghost from: Owners)
      requires OwnersValid() && requested && AllWind(from, Now()) && Fenced(Now(), 6, faults.fences)
      modifies this`errors, this`ownershipUnproven, this`thrown, application, facilitator, facilitator.lifetime, poller, reconciler, healthProbe, dispatcher, server
      ensures OwnersValid() && AllWind(from, Now()) && ServerKept() && errors >= old(errors)
      ensures Fenced(Now(), 6, faults.fences) && Draining(Now(), 6, faults.drains) && MoreThrew(old(thrown), thrown, faults)
      ensures ownershipUnproven <==> old(ownershipUnproven) || SomeDrainThrows(faults)
    {
      NobodyYet(Now(), faults);
      hide OwnersValid, Now, AllWind, Fenced, Draining, HasSettled;
      ghost var drains := faults.drains;
      DrainClients(faults, noise, from);
      DrainIndexer(faults, noise, from);
      assert SomeDrainThrows(faults) <==> Application in drains || Facilitator in drains || Poller in drains
                                          || Reconciler in drains || HealthProbe in drains || Dispatcher in drains;
    }

    method DrainClients(faults: Faults, noise: seq<seq<Happening>>, ghost from: Owners)
      requires OwnersValid() && requested && AllWind(from, Now())
      requires Fenced(Now(), 6, faults.fences) && Draining(Now(), 0, faults.drains)
      modifies this`errors, this`ownershipUnproven, this`thrown, application, facilitator, facilitator.lifetime, poller, reconciler, healthProbe, dispatcher, server
      ensures OwnersValid() && AllWind(from, Now()) && ServerKept() && errors >= old(errors)
      ensures Fenced(Now(), 6, faults.fences) && Draining(Now(), 3, faults.drains)
      ensures forall n: Name :: n in thrown <==> n in old(thrown) || (n in {Application, Facilitator, Poller} && n in faults.drains)
      ensures ownershipUnproven == (old(ownershipUnproven) || Application in faults.drains || Facilitator in faults.drains || Poller in faults.drains)
    {
      hide OwnersValid, Now, AllWind, Fenced, Draining, HasSettled, NoiseAt, OnlyLived;
      Own(Application, faults, NoiseAt(noise, 9), from);
      Own(Facilitator, faults, NoiseAt(noise, 10), from);
      Own(Poller, faults, NoiseAt(noise, 11), from);
    }

    method DrainIndexer(faults: Faults, noise: seq<seq<Happening>>, ghost from: Owners)
      requires OwnersValid() && requested && AllWind(from, Now())
      requires Fenced(Now(), 6, faults.fences) && Draining(Now(), 3, faults.drains)
      modifies this`errors, this`ownershipUnproven, this`thrown, application, facilitator, facilitator.lifetime, poller, reconciler, healthProbe, dispatcher, server
      ensures OwnersValid() && AllWind(from, Now()) && ServerKept() && errors >= old(errors)
      ensures Fenced(Now(), 6, faults.fences) && Draining(Now(), 6, faults.drains)
      ensures forall n: Name :: n in thrown <==> n in old(thrown) || (n in {Reconciler, HealthProbe, Dispatcher} && n in faults.drains)
      ensures ownershipUnproven == (old(ownershipUnproven) || Reconciler in faults.drains || HealthProbe in faults.drains || Dispatcher in faults.drains)
    {
      hide OwnersValid, Now, AllWind, Fenced, Draining, HasSettled, NoiseAt, OnlyLived;
      Own(Reconciler, faults, NoiseAt(noise, 12), from);
      Own(HealthProbe, faults, NoiseAt(noise, 13), from);
      Own(Dispatcher, faults, NoiseAt(noise, 14), from);
    }

    /** Anything an owner or the server does, before, during or after shutdown. */
    method OwnerWorks(h: Happening)
      requires Valid()
      modifies this`errors, application, facilitator, facilitator.lifetime, poller, reconciler, healthProbe, dispatcher, server
      ensures Valid() && AllWind(old(Now()), Now())
      ensures closes == 1 ==> Now() == old(Now()) && (!server.threwNotRunning ==> !server.listening && server.sockets == 0)
    {
      LivesOn(h);
      hide Valid, Now, AllWind;
      if closes == 1 {
        NothingReturns();
        if !server.threwNotRunning { ServerStaysClosed(); }
      }
    }

    method LivesOn(h: Happening)
      requires Valid()
      modifies this`errors, application, facilitator, facilitator.lifetime, poller, reconciler, healthProbe, dispatcher, server
      ensures Valid() && AllWind(old(Now()), Now())
    {
      hide OwnersValid, Now, AllWind, Fenced, Draining, Joined;
      Happen(h);
      MilestonesKept(old(Now()), Now(), 6, map[], pending);
    }

    /** Once the store is closed, no life of the workers changes any of them. */
    twostate lemma NothingReturns()
      requires old(Valid()) && Valid() && closes == 1 && old(closes) == 1 && AllWind(old(Now()), Now())
      ensures Now() == old(Now())
    {
      assert old(Joined(Now(), {}));
      OldSound();
      OwnersSound();
      hide OwnersValid, Now, AllSound, AllWind, Joined;
      JoinedForGood(old(Now()), Now());
    }

    twostate lemma OldSound()
      requires old(OwnersValid())
      ensures AllSound(old(Now()))
    {
      hide D.IndexerRequestDispatcher.Booked, D.IndexerRequestDispatcher.Answered, D.IndexerRequestDispatcher.TimersKnown;
      EachSound(old(Now()));
    }

    lemma ServerStaysClosed()
      requires Valid() && closes == 1 && !server.threwNotRunning
      ensures !server.listening && server.sockets == 0
    {
      server.SettledMeansClosed();
    }

    /** A join settles: the owner's drain promise has resolved or rejected, or its callback had thrown. */
    method JoinSettles(name: Name, rejects: bool)
      requires Valid() && name in pending && !concluded
      requires name in thrown || HasSettled(name) || (name == Server && server.promise.Incomplete?)
      modifies this`pending, this`errors, this`ownershipUnproven
      ensures Valid() && pending == old(pending) - {name}
      ensures ownershipUnproven == (old(ownershipUnproven) || (name == Server && name !in thrown && server.promise.Incomplete?))
      ensures errors == old(errors) + if name in thrown || (if name == Server then !server.promise.Fulfilled? else rejects) then 1 else 0
    {
      hide OwnersValid, Now, Draining;
      pending := pending - {name};
      if name in thrown {
        errors := errors + 1;
      } else if name == Server {
        if server.promise.Incomplete? {
          ownershipUnproven := true;
        }
        if !server.promise.Fulfilled? {
          errors := errors + 1;
        }
      } else if rejects {
        errors := errors + 1;
      }
    }

    lemma AllSettled()
      requires Joined(Now(), {}) && HasSettled(Server)
      ensures forall n: Name :: HasSettled(n)
    {
      hide Now;
    }

    /** Every join settles, one after the other. */
    method JoinAll()
      requires Valid() && requested && pending == Everyone() && !concluded && thrown == {}
      requires forall n: Name :: HasSettled(n)
      modifies this`pending, this`errors, this`ownershipUnproven
      ensures Valid() && pending == {} && ownershipUnproven == old(ownershipUnproven)
    {
      assert !server.promise.Incomplete? by { assert HasSettled(Server); }
      hide Valid, Now, HasSettled;
      while pending != {}
        invariant Valid() && ownershipUnproven == old(ownershipUnproven)
        decreases pending
      {
        var name :| name in pending;
        JoinSettles(name, false);
      }
    }

    method DeadlineFires()
      requires Valid() && deadlineArmed
      modifies this`deadlineArmed, this`completed, this`result, this`exitCode, this`terminations
      ensures Valid() && completed && !deadlineArmed
      ensures if old(completed) then result == old(result) && terminations == old(terminations)
              else result == Some(DeadlineExceeded) && terminations == 1
    {
      hide OwnersValid, Proved;
      deadlineArmed := false;
      Terminate(DeadlineExceeded);
    }

    /** All joins have settled. The guard on `completed` is evaluated once, before the timer is cleared. */
    method Conclude(clearing: Clearing, storeThrows: bool)
      requires Valid() && requested && pending == {} && !concluded
      modifies this`concluded, this`completed, this`result, this`exitCode, this`terminations, this`closes
      modifies this`deadlineArmed, this`clearingFired, this`errors
      ensures Valid() && concluded && completed
      ensures closes == 1 <==> !old(completed) && !old(ownershipUnproven)
      ensures result == if old(completed) then old(result)
                        else if old(deadlineArmed) && clearing == ClearFires then Some(DeadlineExceeded)
                        else if old(ownershipUnproven) then Some(OwnershipFailed) else Some(Drained)
      // What the process exits with: nothing but a drain without a single error is a success.
      ensures exitCode == 0 && !old(completed) <==> result == Some(Drained) && old(errors) == 0 && !storeThrows && (!old(deadlineArmed) || clearing == Cleared)
      // The store closes under a process already told to terminate exactly when clearing runs the callback.
      ensures (closes == 1 && terminations == 1) <==>
                !old(completed) && !old(ownershipUnproven) && old(deadlineArmed) && clearing == ClearFires
    {
      hide OwnersValid, Proved;
      concluded := true;
      if completed {
        return;
      }
      ClearDeadline(clearing);
      if ownershipUnproven {
        Terminate(OwnershipFailed);
        return;
      }
      CloseStore(storeThrows);
    }

    method ClearDeadline(clearing: Clearing)
      requires !completed
      modifies this`completed, this`result, this`exitCode, this`terminations, this`deadlineArmed, this`clearingFired, this`errors
      ensures if old(deadlineArmed) && clearing == ClearFires
              then clearingFired && completed && result == Some(DeadlineExceeded) && exitCode == 1 && terminations == old(terminations) + 1
              else clearingFired == old(clearingFired) && !completed && result == old(result) && terminations == old(terminations)
      ensures errors == old(errors) + if old(deadlineArmed) && clearing == ClearThrows then 1 else 0
    {
      if deadlineArmed {
        match clearing {
          case Cleared => deadlineArmed := false;
          case ClearThrows => errors := errors + 1;
          case ClearFires =>
            deadlineArmed, clearingFired := false, true;
            Terminate(DeadlineExceeded);
        }
      }
    }

    /** The store closes once; its error is only counted. */
    method CloseStore(storeThrows: bool)
      modifies this`closes, this`errors, this`completed, this`result, this`exitCode
      ensures closes == old(closes) + 1 && completed && result == if old(result).None? then Some(Drained) else old(result)
      ensures errors == old(errors) + if storeThrows then 1 else 0
      ensures exitCode == if old(result).Some? then old(exitCode) else if errors > 0 then 1 else 0
    {
      closes := closes + 1;
      if storeThrows {
        errors := errors + 1;
      }
      completed := true;
      if result.None? {
        result, exitCode := Some(Drained), if errors > 0 then 1 else 0;
      }
    }

    /**
     Closing and terminating both happen only when clearing the timer ran its callback, which Node's own timers
     never do: an injected timer is needed.
     */
    lemma BothOnlyWhenClearingFires()
      requires Valid() && closes == 1 && terminations == 1
      ensures clearingFired && result == Some(DeadlineExceeded)
    {
    }
  }

  method IdleClients() returns (application: ApplicationLifetime, facilitator: F.RoundWatchFacilitator)
    ensures fresh(application) && fresh(facilitator) && fresh(facilitator.lifetime) && application != facilitator.lifetime
    ensures Sound(application.Model()) && facilitator.Valid() && application.drained && facilitator.Model().drained
  {
    application := new ApplicationLifetime();
    application.Drain();
    facilitator := new F.RoundWatchFacilitator();
    facilitator.Drain();
  }

  method IdleWorkers() returns (poller: P.RoundWatchPoller, reconciler: R.RoundWatchReconciler)
    ensures fresh(poller) && fresh(reconciler) && poller.Valid() && reconciler.Valid() && poller.drained && reconciler.drained
  {
    poller := new P.RoundWatchPoller();
    poller.Drain();
    reconciler := new R.RoundWatchReconciler();
    reconciler.Drain();
  }

  method IdleIndexer() returns (healthProbe: H.IndexerHealthProbe, dispatcher: D.IndexerRequestDispatcher)
    ensures fresh(healthProbe) && fresh(dispatcher) && healthProbe.Valid() && dispatcher.Steady()
    ensures healthProbe.drained && dispatcher.drained
  {
    hide D.IndexerRequestDispatcher.Booked, D.IndexerRequestDispatcher.Answered, D.IndexerRequestDispatcher.TimersKnown;
    healthProbe := new H.IndexerHealthProbe(1000, 1000);
    healthProbe.Drain();
    dispatcher := new D.IndexerRequestDispatcher(1.0, 1, 1, 0.0);
    dispatcher.Drain();
  }

  /** A coordinator whose workers are already idle for good and whose server was never created. */
  method IdleCoordinator() returns (c: ShutdownCoordinator)
    ensures fresh(c) && c.Valid() && !c.requested && !c.server.created
    ensures Joined(c.Now(), {})
    ensures fresh(c.application) && fresh(c.facilitator) && fresh(c.facilitator.lifetime) && fresh(c.poller)
    ensures fresh(c.reconciler) && fresh(c.healthProbe) && fresh(c.dispatcher) && fresh(c.server)
  {
    hide F.RoundWatchFacilitator.Valid, P.RoundWatchPoller.Valid, R.RoundWatchReconciler.Valid;
    hide H.IndexerHealthProbe.Valid, D.IndexerRequestDispatcher.Steady, ShutdownCoordinator.Valid, Sound;
    var application, facilitator := IdleClients();
    var poller, reconciler := IdleWorkers();
    var healthProbe, dispatcher := IdleIndexer();
    var server := new S.NodeServer();
    c := new ShutdownCoordinator(application, facilitator, poller, reconciler, healthProbe, dispatcher, server);
  }

  /** A run of the coordinator, with a timer that fires when it is cleared, that terminates and then closes the store. */
  method TerminatesAndCloses() returns (c: ShutdownCoordinator)
    ensures fresh(c) && c.Valid() && c.closes == 1 && c.terminations == 1 && c.result == Some(DeadlineExceeded)
  {
    hide ShutdownCoordinator.Valid, ShutdownCoordinator.Now, AllWind, Joined;
    c := IdleCoordinator();
    label Idle:
    c.Shutdown(false, Faults(map[], false, false, map[], false), S.Accepted, []);
    MilestonesKept(old@Idle(c.Now()), c.Now(), 0, map[], {});
    c.AllSettled();
    c.JoinAll();
    c.Conclude(ClearFires, false);
    c.BothOnlyWhenClearingFires();
  }
}
