/**
 The shared Indexer health probe: one probe at a time, failures that outdate probes already under way,
 and an epoch that moves once per burst of failures. Clock readings are parameters, in milliseconds.
 `history` records what happened, in order.
 */
module HealthProbe {
  import opened Common
  import Lifetimes

  datatype Capabilities = Capabilities(polling: bool, reconciliation: bool)

  datatype Sample = Sample(
    revision: nat,
    failureEpoch: nat,
    providerFailureRevision: nat,
    attemptedAt: int,
    completedAt: int,
    evidence: Capabilities)

  /** A probe under way, with the failure counters as they were when it started. */
  datatype Probe = Probe(revision: nat, failureEpoch: nat, providerFailureRevision: nat, attemptedAt: int, maximumAge: int)

  datatype Outcome = Interrupted | BadAge | Joined(revision: nat) | Cached(sample: Sample) | Launched(revision: nat)

  datatype Moment = Failed | Started(revision: nat) | Ended(revision: nat) | Recovered

  // ---- What the history says ---------------------------------------------------------------

  function Failures(h: seq<Moment>): nat {
    if h == [] then 0 else Failures(h[..|h| - 1]) + if h[|h| - 1].Failed? then 1 else 0
  }

  /** A burst is open from its first failure until a complete, current and fresh recovery. */
  predicate InBurst(h: seq<Moment>) {
    h != [] && (h[|h| - 1].Failed? || (!h[|h| - 1].Recovered? && InBurst(h[..|h| - 1])))
  }

  function Bursts(h: seq<Moment>): nat {
    if h == [] then 0
    else Bursts(h[..|h| - 1]) + if h[|h| - 1].Failed? && !InBurst(h[..|h| - 1]) then 1 else 0
  }

  function UnderWay(h: seq<Moment>): int {
    if h == [] then 0
    else UnderWay(h[..|h| - 1]) + match h[|h| - 1] case Started(_) => 1 case Ended(_) => -1 case _ => 0
  }

  /** At no moment was more than one probe under way. */
  ghost predicate OneAtATime(h: seq<Moment>) {
    forall k | 0 <= k <= |h| :: 0 <= UnderWay(h[..k]) <= 1
  }

  lemma StillOneAtATime(h: seq<Moment>, m: Moment)
    requires OneAtATime(h) && 0 <= UnderWay(h + [m]) <= 1
    ensures OneAtATime(h + [m])
  {
    forall k | 0 <= k <= |h + [m]| ensures 0 <= UnderWay((h + [m])[..k]) <= 1 {
      if k <= |h| { assert (h + [m])[..k] == h[..k]; } else { assert (h + [m])[..k] == h + [m]; }
    }
  }

  /** The probe started here, when the counters stood at these values. */
  ghost predicate StartedAt(h: seq<Moment>, p: nat, revision: nat, failures: nat) {
    p < |h| && h[p] == Started(revision) && Failures(h[..p]) == failures
  }

  lemma Extended(h: seq<Moment>, m: Moment)
    ensures (h + [m])[..|h + [m]| - 1] == h && (h + [m])[|h + [m]| - 1] == m
    ensures Failures(h + [m]) == Failures(h) + if m.Failed? then 1 else 0
    ensures Bursts(h + [m]) == Bursts(h) + if m.Failed? && !InBurst(h) then 1 else 0
    ensures InBurst(h + [m]) == (m.Failed? || (!m.Recovered? && InBurst(h)))
    ensures UnderWay(h + [m]) == UnderWay(h) + match m case Started(_) => 1 case Ended(_) => -1 case _ => 0
  {
    assert (h + [m])[..|h + [m]| - 1] == h;
  }

  lemma StartStays(h: seq<Moment>, m: Moment, p: nat, revision: nat, failures: nat)
    requires StartedAt(h, p, revision, failures)
    ensures StartedAt(h + [m], p, revision, failures)
  {
    assert (h + [m])[..p] == h[..p];
  }

  lemma {:induction false} FailuresGrow(h: seq<Moment>, p: nat, q: nat)
    requires p <= q < |h| && h[q].Failed?
    ensures Failures(h[..p]) < Failures(h)
    decreases |h|
  {
    var front := h[..|h| - 1];
    if q == |h| - 1 {
      FailuresMonotone(front, p);
      assert front[..p] == h[..p];
    } else {
      assert front[q] == h[q] && front[..p] == h[..p];
      FailuresGrow(front, p, q);
    }
  }

  lemma {:induction false} FailuresMonotone(h: seq<Moment>, p: nat)
    requires p <= |h|
    ensures Failures(h[..p]) <= Failures(h)
    decreases |h|
  {
    if p == |h| {
      assert h[..p] == h;
    } else {
      FailuresMonotone(h[..|h| - 1], p);
      assert h[..|h| - 1][..p] == h[..p];
    }
  }

  /** Equal counters mean that no failure at all was observed after the probe started. */
  lemma NoFailureSince(h: seq<Moment>, p: nat, revision: nat)
    requires StartedAt(h, p, revision, Failures(h))
    ensures forall q | p <= q < |h| :: !h[q].Failed?
  {
    forall q | p <= q < |h| ensures !h[q].Failed? {
      if h[q].Failed? { FailuresGrow(h, p, q); }
    }
  }

  /** What the probe's own supplier does synchronously while it is being asked. */
  datatype Reentry = StopsProbe | DrainsProbe | ReportsFailure | AsksAgain(maximumAge: int)

  /** Anything that can happen to a probe from outside, or when its promise moves on. */
  datatype ProbeEvent =
    | Asked(maximumAge: int, at: int, clockStops: bool, source: seq<Reentry>)
    | SourceSettles(evidence: Option<Capabilities>, interrupted: bool, completedAt: int, at: int)
    | FinallyRuns
    | FailureReported
    | ProbeStops
    | ProbeDrains

  class IndexerHealthProbe {
    const minimumInterval: int
    const idleInterval: int
    var lastAttemptAt: Option<int>
    var pending: Option<Probe>
    var settled: bool
    var latest: Option<Sample>
    var revision: nat
    var failureEpoch: nat
    var providerFailureRevision: nat
    var providerEvidenceInvalidated: bool
    var schedulingStopped: bool
    var drainRequested: bool
    var drained: bool
    ghost var history: seq<Moment>

    ghost predicate Valid()
      reads this
    {
      && 1000 <= minimumInterval <= idleInterval
      && providerFailureRevision == Failures(history)
      && failureEpoch == Bursts(history) && providerEvidenceInvalidated == InBurst(history)
      && UnderWay(history) == (if pending.Some? && !settled then 1 else 0) && OneAtATime(history)
      && (pending.Some? ==> && pending.value.revision == revision
                            && exists p :: StartedAt(history, p, pending.value.revision, pending.value.providerFailureRevision))
      && (latest.Some? ==> && latest.value.revision <= revision
                           && exists p :: StartedAt(history, p, latest.value.revision, latest.value.providerFailureRevision))
      && (drainRequested ==> schedulingStopped)
      && (drained <==> drainRequested && pending.None?)
    }

    /** A probe is owned from its start until its promise, finally included, has run. */
    function Model(): Lifetimes.Owner
      reads this
    {
      Lifetimes.Owner(schedulingStopped, if pending.Some? then 1 else 0, drainRequested, drained)
    }

    /** A resolved drain: no probe is under way, and none can follow. */
    lemma DrainedMeansIdle()
      requires Valid() && drained
      ensures schedulingStopped && pending.None? && UnderWay(history) == 0
    {
    }

    constructor (minimumInterval: int, idleInterval: int)
      requires 1000 <= minimumInterval <= idleInterval
      ensures Valid() && this.minimumInterval == minimumInterval && this.idleInterval == idleInterval
      ensures history == [] && latest.None? && pending.None? && Model() == Lifetimes.Idle()
    {
      this.minimumInterval, this.idleInterval := minimumInterval, idleInterval;
      lastAttemptAt, pending, settled, latest := None, None, false, None;
      revision, failureEpoch, providerFailureRevision, providerEvidenceInvalidated := 0, 0, 0, false;
      schedulingStopped, drainRequested, drained := false, false, false;
      history := [];
    }

    predicate IsSampleCurrent(sample: Sample)
      reads this
    {
      sample.failureEpoch == failureEpoch && sample.providerFailureRevision == providerFailureRevision
    }

    predicate IsSampleFresh(sample: Sample, maximumAge: int, at: int)
      reads this
    {
      && IsSampleCurrent(sample)
      && sample.completedAt >= sample.attemptedAt && sample.completedAt - sample.attemptedAt <= maximumAge
      && at >= sample.attemptedAt && at - sample.attemptedAt <= maximumAge
    }

    /** A current sample was probed after every failure observed so far. */
    lemma CurrentMeansNoLaterFailure()
      requires Valid() && latest.Some? && IsSampleCurrent(latest.value)
      ensures exists p :: 0 <= p < |history| && history[p] == Started(latest.value.revision)
                          && forall q | p <= q < |history| :: !history[q].Failed?
    {
      var p :| StartedAt(history, p, latest.value.revision, latest.value.providerFailureRevision);
      NoFailureSince(history, p, latest.value.revision);
    }

    ghost method Record(m: Moment)
      modifies this`history
      ensures history == old(history) + [m]
      ensures Failures(history) == Failures(old(history)) + if m.Failed? then 1 else 0
      ensures Bursts(history) == Bursts(old(history)) + if m.Failed? && !InBurst(old(history)) then 1 else 0
      ensures InBurst(history) == (m.Failed? || (!m.Recovered? && InBurst(old(history))))
      ensures UnderWay(history) == UnderWay(old(history)) + match m case Started(_) => 1 case Ended(_) => -1 case _ => 0
      ensures forall p, r, f :: StartedAt(old(history), p, r, f) ==> StartedAt(history, p, r, f)
      ensures OneAtATime(old(history)) && 0 <= UnderWay(history) <= 1 ==> OneAtATime(history)
    {
      Extended(history, m);
      if OneAtATime(history) && 0 <= UnderWay(history + [m]) <= 1 { StillOneAtATime(history, m); }
      forall p, r, f | StartedAt(history, p, r, f) ensures StartedAt(history + [m], p, r, f) {
        StartStays(history, m, p, r, f);
      }
      history := history + [m];
    }

    method StopScheduling()
      requires Valid()
      modifies this`schedulingStopped
      ensures Valid() && Model() == Lifetimes.Fence(old(Model()))
    {
      schedulingStopped := true;
    }

    method Drain()
      requires Valid()
      modifies this`schedulingStopped, this`drainRequested, this`drained
      ensures Valid() && Model() == Lifetimes.DrainAll(old(Model()))
    {
      StopScheduling();
      if !drainRequested {
        drainRequested := true;
        drained := pending.None?;
      }
    }

    method InvalidateForProviderFailure() returns (epoch: nat)
      requires Valid()
      modifies this`providerFailureRevision, this`providerEvidenceInvalidated, this`failureEpoch, this`history
      ensures Valid() && history == old(history) + [Failed] && epoch == failureEpoch && Model() == old(Model())
      ensures failureEpoch == old(failureEpoch) + if old(providerEvidenceInvalidated) then 0 else 1
      ensures latest.Some? && latest.value.providerFailureRevision <= old(providerFailureRevision) ==> !IsSampleCurrent(latest.value)
    {
      hide OneAtATime, InBurst, Bursts, UnderWay, Failures;
      providerFailureRevision := providerFailureRevision + 1;
      if !providerEvidenceInvalidated {
        providerEvidenceInvalidated := true;
        failureEpoch := failureEpoch + 1;
      }
      Record(Failed);
      return failureEpoch;
    }

    function EffectiveMaximumAge(maximumAge: int): int
      reads this
    {
      if latest.Some? && latest.value.evidence.polling && latest.value.evidence.reconciliation && IsSampleCurrent(latest.value)
      then maximumAge
      else if maximumAge <= minimumInterval then maximumAge else minimumInterval
    }

    /** What a caller gets, decided by the state and the clock reading alone. */
    function Decision(maximumAge: int, at: int, clockStops: bool): Outcome
      reads this
    {
      if schedulingStopped then Interrupted
      else if maximumAge < minimumInterval then BadAge
      else if pending.Some? then Joined(pending.value.revision)
      else if clockStops then Interrupted
      else if latest.Some? && IsSampleCurrent(latest.value) && lastAttemptAt.Some? && at - lastAttemptAt.value < EffectiveMaximumAge(maximumAge)
      then Cached(latest.value)
      else Launched(revision + 1)
    }

    /** How long ago the last attempt may lie for its sample to be reused: an unhealthy one is tried again after the minimum. */
    predicate Reusable(maximumAge: int, at: int)
      reads this
    {
      && latest.Some? && latest.value.failureEpoch == failureEpoch && latest.value.providerFailureRevision == providerFailureRevision
      && lastAttemptAt.Some?
      && (at < lastAttemptAt.value + minimumInterval
          || (latest.value.evidence == Capabilities(true, true) && at < lastAttemptAt.value + maximumAge))
    }

    /** Join the probe under way, reuse the latest sample, or start one probe; each exactly when it is due. */
    method RunIfDue(maximumAge: int, at: int, clockStops: bool, source: seq<Reentry>) returns (outcome: Outcome)
      requires Valid()
      modifies this
      ensures Valid() && outcome == old(Decision(maximumAge, at, clockStops))
      ensures outcome.Launched? ==> lastAttemptAt == Some(at)
      ensures outcome.Interrupted? <==> old(schedulingStopped) || (maximumAge >= minimumInterval && old(pending).None? && clockStops)
      ensures outcome.BadAge? <==> !old(schedulingStopped) && maximumAge < minimumInterval
      ensures outcome.Joined? <==> !old(schedulingStopped) && maximumAge >= minimumInterval && old(pending).Some?
      ensures outcome.Cached? || outcome.Launched? <==>
                !old(schedulingStopped) && maximumAge >= minimumInterval && old(pending).None? && !clockStops
      ensures outcome.Cached? ==> old(Reusable(maximumAge, at))
      ensures outcome.Launched? ==> !old(Reusable(maximumAge, at))
      ensures old(schedulingStopped) ==> outcome.Interrupted? && history == old(history)
      ensures outcome.Launched? ==> && old(pending).None? && !old(schedulingStopped) && revision == old(revision) + 1
                                    && |history| > |old(history)| && history[|old(history)|] == Started(revision) && pending.Some? && pending.value.revision == revision
      ensures outcome.Joined? ==> old(pending).Some? && outcome.revision == old(pending).value.revision && history == old(history)
      ensures outcome.Cached? ==> && old(latest) == Some(outcome.sample) && IsSampleCurrent(outcome.sample) && history == old(history)
                                  && old(lastAttemptAt).Some? && at - old(lastAttemptAt).value < maximumAge
      ensures old(history) <= history && old(revision) <= revision
      ensures Lifetimes.Sound(Model()) && Lifetimes.Winds(old(Model()), Model())
    {
      hide OneAtATime, InBurst, Bursts, UnderWay, Failures;
      if schedulingStopped {
        return Interrupted;
      }
      if maximumAge < minimumInterval {
        return BadAge;
      }
      if pending.Some? {
        return Joined(pending.value.revision);
      }
      if clockStops {
        StopScheduling();
      }
      if schedulingStopped {
        return Interrupted;
      }
      if latest.Some? && IsSampleCurrent(latest.value) && lastAttemptAt.Some? && at - lastAttemptAt.value < EffectiveMaximumAge(maximumAge) {
        return Cached(latest.value);
      }
      Launch(maximumAge, at);
      outcome := Launched(revision);
      AskSource(source);
    }

    /** A new probe is under way, with the counters as they stand. */
    method Launch(maximumAge: int, at: int)
      requires Valid() && pending.None? && !schedulingStopped
      modifies this`lastAttemptAt, this`revision, this`pending, this`settled, this`history
      ensures Valid() && lastAttemptAt == Some(at) && revision == old(revision) + 1
      ensures pending == Some(Probe(revision, failureEpoch, providerFailureRevision, at, maximumAge))
      ensures history == old(history) + [Started(revision)]
    {
      hide OneAtATime, InBurst, Bursts, UnderWay, Failures;
      lastAttemptAt := Some(at);
      revision := revision + 1;
      pending, settled := Some(Probe(revision, failureEpoch, providerFailureRevision, at, maximumAge)), false;
      ghost var p := |history|;
      Record(Started(revision));
      assert history[..p] == old(history);
      assert StartedAt(history, p, revision, providerFailureRevision);
    }

    /** Ownership is established before the source runs, so it may stop, drain, fail or ask again. */
    method AskSource(source: seq<Reentry>)
      requires Valid() && pending.Some?
      modifies this`schedulingStopped, this`drainRequested, this`drained, this`providerFailureRevision,
               this`providerEvidenceInvalidated, this`failureEpoch, this`history
      ensures Valid() && old(history) <= history && (old(schedulingStopped) ==> schedulingStopped)
      ensures old(drainRequested) ==> drainRequested
    {
      var i := 0;
      while i < |source|
        invariant 0 <= i <= |source| && Valid() && old(history) <= history
        invariant (old(schedulingStopped) ==> schedulingStopped) && (old(drainRequested) ==> drainRequested)
      {
        match source[i] {
          case StopsProbe => StopScheduling();
          case DrainsProbe => Drain();
          case ReportsFailure => var epoch := InvalidateForProviderFailure();
          // The probe under way answers a nested request: it starts nothing.
          case AsksAgain(_) =>
        }
        i := i + 1;
      }
    }

    /** The probe's promise settles. Any error but an interruption counts as both capabilities missing. */
    method Settle(evidence: Option<Capabilities>, interrupted: bool, completedAt: int, at: int)
      requires Valid() && pending.Some? && !settled
      modifies this`latest, this`settled, this`providerEvidenceInvalidated, this`history
      ensures Valid() && settled && old(history) < history && Model() == old(Model())
      ensures interrupted ==> latest == old(latest) && providerEvidenceInvalidated == old(providerEvidenceInvalidated)
      ensures !interrupted ==>
                latest == Some(Sample(pending.value.revision, pending.value.failureEpoch, pending.value.providerFailureRevision,
                                      pending.value.attemptedAt, completedAt,
                                      if evidence.Some? then evidence.value else Capabilities(false, false)))
      ensures pending == old(pending)
      ensures providerEvidenceInvalidated == (old(providerEvidenceInvalidated)
                && !(!interrupted && latest.value.evidence == Capabilities(true, true)
                     && IsSampleFresh(latest.value, pending.value.maximumAge, at)))
    {
      hide OneAtATime, InBurst, Bursts, UnderWay, Failures;
      var probe := pending.value;
      settled := true;
      Record(Ended(probe.revision));
      if !interrupted {
        var found := if evidence.Some? then evidence.value else Capabilities(false, false);
        var sample := Sample(probe.revision, probe.failureEpoch, probe.providerFailureRevision, probe.attemptedAt, completedAt, found);
        latest := Some(sample);
        if found.polling && found.reconciliation && IsSampleFresh(sample, probe.maximumAge, at) {
          providerEvidenceInvalidated := false;
          Record(Recovered);
        }
      }
    }

    /** The finally continuation: only now can another probe start, and only now does a requested drain resolve. */
    method ClearPending()
      requires Valid() && pending.Some? && settled
      modifies this`pending, this`settled, this`drained
      ensures Valid() && pending.None? && Model() == Lifetimes.FinishOne(old(Model()))
    {
      pending, settled := None, false;
      if drainRequested {
        drained := true;
      }
    }

    method Happens(e: ProbeEvent)
      requires Valid()
      modifies this
      ensures Valid() && old(history) <= history && Lifetimes.Sound(Model()) && Lifetimes.Winds(old(Model()), Model())
      ensures (e.ProbeStops? ==> schedulingStopped) && (e.ProbeDrains? ==> drainRequested)
    {
      hide OneAtATime, InBurst, Bursts, UnderWay, Failures;
      match e {
        case Asked(maximumAge, at, clockStops, source) =>
          var outcome := RunIfDue(maximumAge, at, clockStops, source);
        case SourceSettles(evidence, interrupted, completedAt, at) =>
          if pending.Some? && !settled {
            Settle(evidence, interrupted, completedAt, at);
          }
        case FinallyRuns =>
          if pending.Some? && settled {
            ClearPending();
          }
        case FailureReported =>
          var epoch := InvalidateForProviderFailure();
        case ProbeStops => StopScheduling();
        case ProbeDrains => Drain();
      }
    }
  }
}
