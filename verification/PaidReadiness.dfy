/** Paid admission: local state is read again, and only live shared evidence is used, at the moment of decision. */
module PaidReadiness {
  import opened Common
  import opened HealthProbe

  datatype Worker = Worker(started: bool, cycleNotStalled: bool, unhealthy: bool, generation: nat)

  datatype Local = Local(storage: bool, diskHeadroom: bool, poller: Worker, reconciler: Worker)

  datatype Generations = Generations(poller: nat, reconciler: nat)

  datatype Snapshot = Snapshot(
    ready: bool,
    storage: bool,
    poller: bool,
    reconciler: bool,
    backgroundWorkers: bool,
    diskHeadroom: bool,
    evidenceFresh: Option<bool>,
    generations: Option<Generations>)

  predicate Operational(w: Worker) {
    w.started && w.cycleNotStalled && !w.unhealthy
  }

  predicate WorkersOperational(l: Local) {
    Operational(l.poller) && Operational(l.reconciler)
  }

  function GenerationsOf(l: Local): Generations {
    Generations(l.poller.generation, l.reconciler.generation)
  }

  function LocalFailure(l: Local): Snapshot {
    var poller, reconciler := Operational(l.poller), Operational(l.reconciler);
    Snapshot(false, l.storage, poller, reconciler, poller && reconciler, l.diskHeadroom, None, None)
  }

  /** currentSnapshot; asking about freshness with an age below the probe's own interval throws. */
  function CurrentSnapshot(l: Local, probe: IndexerHealthProbe, generations: Option<Generations>,
                           maximumAge: int, at: int): Result<Snapshot>
    reads probe
  {
    if !l.storage || !l.diskHeadroom || !WorkersOperational(l) || generations != Some(GenerationsOf(l))
    then Ok(LocalFailure(l))
    else if probe.latest.Some? && maximumAge < probe.minimumInterval then Thrown
    else
      var current := probe.latest.Some? && probe.IsSampleFresh(probe.latest.value, maximumAge, at);
      var poller := current && probe.latest.value.evidence.polling;
      var reconciler := current && probe.latest.value.evidence.reconciliation;
      Ok(Snapshot(poller && reconciler, l.storage, poller, reconciler, poller && reconciler, l.diskHeadroom,
                  Some(current), Some(GenerationsOf(l))))
  }

  /** The first half of a refresh: what has to hold locally before the probe is asked at all. */
  function RefreshBegins(before: Local): Option<Generations> {
    if before.storage && before.diskHeadroom && WorkersOperational(before) then Some(GenerationsOf(before)) else None
  }

  /** The second half, after the probe has answered. */
  function RefreshEnds(before: Local, after: Local, probe: IndexerHealthProbe, maximumAge: int, at: int): Result<Snapshot>
    reads probe
  {
    match RefreshBegins(before)
    case None => Ok(LocalFailure(before))
    case Some(generations) => CurrentSnapshot(after, probe, Some(generations), maximumAge, at)
  }

  /** validateCurrent. */
  function ValidateCurrent(refreshed: Snapshot, now: Local, probe: IndexerHealthProbe, maximumAge: int, at: int): Result<Snapshot>
    reads probe
  {
    if refreshed.ready then CurrentSnapshot(now, probe, refreshed.generations, maximumAge, at) else Ok(LocalFailure(now))
  }

  /** A ready refresh carries the generations both workers had when it began. */
  lemma ReadyRefresh(before: Local, after: Local, probe: IndexerHealthProbe, maximumAge: int, at: int)
    requires RefreshEnds(before, after, probe, maximumAge, at).Ok? && RefreshEnds(before, after, probe, maximumAge, at).value.ready
    ensures RefreshEnds(before, after, probe, maximumAge, at).value.generations == Some(GenerationsOf(before))
    ensures GenerationsOf(after) == GenerationsOf(before)
  {
  }

  /** Evidence that may back a paid admission at this moment. */
  ghost predicate Live(probe: IndexerHealthProbe, maximumAge: int, at: int)
    reads probe
  {
    && probe.latest.Some?
    && var s := probe.latest.value;
    && s.evidence == Capabilities(true, true)
    && s.attemptedAt <= at <= s.attemptedAt + maximumAge
    && s.attemptedAt <= s.completedAt <= s.attemptedAt + maximumAge
    && s.failureEpoch == probe.failureEpoch
    && s.providerFailureRevision == Failures(probe.history)
  }

  /**
   Validation says ready exactly when the refresh was ready, storage and workers are fine now, neither
   worker was restarted since the refresh, and the shared evidence is live at this very moment.
   */
  lemma ReadyExactly(refreshed: Snapshot, now: Local, probe: IndexerHealthProbe, maximumAge: int, at: int)
    requires probe.Valid() && maximumAge >= probe.minimumInterval
    ensures var v := ValidateCurrent(refreshed, now, probe, maximumAge, at);
            && v.Ok?
            && (v.value.ready <==> && refreshed.ready && now.storage && now.diskHeadroom && WorkersOperational(now)
                                   && refreshed.generations == Some(GenerationsOf(now)) && Live(probe, maximumAge, at))
  {
  }

  predicate WorkerFine(w: Worker) { w.started && w.cycleNotStalled && !w.unhealthy }

  /** The sample is recent enough, both when it was taken and now, and no failure has been observed since. */
  ghost predicate FreshSample(probe: IndexerHealthProbe, maximumAge: int, at: int)
    reads probe
  {
    && probe.latest.Some?
    && var s := probe.latest.value;
    && s.attemptedAt <= at <= s.attemptedAt + maximumAge && s.attemptedAt <= s.completedAt <= s.attemptedAt + maximumAge
    && s.failureEpoch == probe.failureEpoch && s.providerFailureRevision == Failures(probe.history)
  }

  /**
   What a validation reports, check by check: storage and disk as they are now; without evidence, each worker as it is
   now; with fine local state and unchanged workers, the live evidence for each capability, and whether it is fresh.
   */
  lemma ReportsWhatItFinds(refreshed: Snapshot, now: Local, probe: IndexerHealthProbe, maximumAge: int, at: int)
    requires probe.Valid() && maximumAge >= probe.minimumInterval
    ensures var r := ValidateCurrent(refreshed, now, probe, maximumAge, at);
            && r.Ok?
            && var v := r.value;
            && v.storage == now.storage && v.diskHeadroom == now.diskHeadroom && v.backgroundWorkers == (v.poller && v.reconciler)
            && (v.evidenceFresh.Some? <==> && refreshed.ready && now.storage && now.diskHeadroom
                                           && WorkerFine(now.poller) && WorkerFine(now.reconciler)
                                           && refreshed.generations == Some(Generations(now.poller.generation, now.reconciler.generation)))
            && (v.evidenceFresh.None? ==> && !v.ready && v.generations.None? && v.poller == WorkerFine(now.poller)
                                          && v.reconciler == WorkerFine(now.reconciler))
            && (v.evidenceFresh.Some? ==>
                  && v.evidenceFresh == Some(FreshSample(probe, maximumAge, at))
                  && v.poller == (FreshSample(probe, maximumAge, at) && probe.latest.value.evidence.polling)
                  && v.reconciler == (FreshSample(probe, maximumAge, at) && probe.latest.value.evidence.reconciliation)
                  && v.generations == refreshed.generations && v.ready == (v.poller && v.reconciler))
  {
  }

  /** Live evidence comes from a probe that started after every provider failure observed so far. */
  lemma LiveMeansAfterEveryFailure(probe: IndexerHealthProbe, maximumAge: int, at: int)
    requires probe.Valid() && Live(probe, maximumAge, at)
    ensures exists p :: 0 <= p < |probe.history| && probe.history[p] == Started(probe.latest.value.revision)
                        && forall q | p <= q < |probe.history| :: !probe.history[q].Failed?
  {
    probe.CurrentMeansNoLaterFailure();
  }

  /** Local state that lets a paid request through, with the workers that were there at the beginning. */
  predicate StillFine(l: Local, before: Local) {
    l.storage && l.diskHeadroom && WorkersOperational(l) && GenerationsOf(l) == GenerationsOf(before)
  }

  /** Whatever else uses the probe between two points of one request. */
  method Meanwhile(probe: IndexerHealthProbe, events: seq<ProbeEvent>)
    requires probe.Valid()
    modifies probe
    ensures probe.Valid() && old(probe.history) <= probe.history
  {
    var i := 0;
    while i < |events|
      invariant 0 <= i <= |events| && probe.Valid() && old(probe.history) <= probe.history
    {
      probe.Happens(events[i]);
      i := i + 1;
    }
  }

  /** The promise a refresh waits for has resolved: a cached sample at once, a probe when it has ended with a sample. */
  predicate Resolved(probe: IndexerHealthProbe, outcome: Outcome)
    reads probe
  {
    match outcome
    case Interrupted => false
    case BadAge => false
    case Cached(_) => true
    case Joined(r) => !(probe.pending.Some? && probe.pending.value.revision == r) && probe.latest.Some? && probe.latest.value.revision >= r
    case Launched(r) => !(probe.pending.Some? && probe.pending.value.revision == r) && probe.latest.Some? && probe.latest.value.revision >= r
  }

  /**
   refresh(): local state first, then one turn of the shared probe, then, after whatever happened while it was
   awaited, local state and shared evidence again. None: it still waits, or it was rejected.
   */
  method Refresh(before: Local, probe: IndexerHealthProbe, maximumAge: int, asked: int, clockStops: bool, source: seq<Reentry>,
                 during: seq<ProbeEvent>, after: Local, resumed: int)
    returns (refreshed: Option<Snapshot>, ghost liveThen: bool)
    requires probe.Valid()
    modifies probe
    ensures probe.Valid() && old(probe.history) <= probe.history && liveThen == Live(probe, maximumAge, resumed)
    ensures refreshed.Some? && refreshed.value.ready ==>
              && StillFine(before, before) && StillFine(after, before) && liveThen
              && refreshed.value.generations == Some(GenerationsOf(before))
    ensures refreshed.Some? && StillFine(before, before) && StillFine(after, before) && liveThen ==> refreshed.value.ready
    ensures refreshed.Some? && refreshed.value.ready ==> maximumAge >= probe.minimumInterval
  {
    if RefreshBegins(before).None? {
      refreshed, liveThen := Some(LocalFailure(before)), Live(probe, maximumAge, resumed);
      return;
    }
    var outcome := probe.RunIfDue(maximumAge, asked, clockStops, source);
    Meanwhile(probe, during);
    liveThen := Live(probe, maximumAge, resumed);
    if !Resolved(probe, outcome) {
      return None, liveThen;
    }
    var ends := RefreshEnds(before, after, probe, maximumAge, resumed);
    if ends.Thrown? {
      return None, liveThen;
    }
    if ends.value.ready {
      ReadyRefresh(before, after, probe, maximumAge, resumed);
    }
    return Some(ends.value), liveThen;
  }

  /**
   End to end, from the first look at local state to the decision, with the probe running, failing and settling
   in between: the validation is ready if and only if storage, disk and both workers were fine at all three
   looks, neither worker was restarted, and the shared evidence was live at the refresh and is live now. That
   evidence comes from a probe that started after every provider failure in the whole history.
   */
  method PaidAdmissionUsesLiveEvidence(before: Local, probe: IndexerHealthProbe, maximumAge: int, asked: int, clockStops: bool,
                                       source: seq<Reentry>, during: seq<ProbeEvent>, after: Local, resumed: int,
                                       since: seq<ProbeEvent>, now: Local, at: int)
    returns (refreshed: Option<Snapshot>, validated: Option<Snapshot>, ghost liveThen: bool)
    requires probe.Valid()
    modifies probe
    ensures probe.Valid() && old(probe.history) <= probe.history
    ensures validated.Some? <==> refreshed.Some?
    ensures validated.Some? ==>
              (validated.value.ready <==> && StillFine(before, before) && StillFine(after, before) && liveThen
                                          && StillFine(now, before) && Live(probe, maximumAge, at))
    ensures validated.Some? && validated.value.ready ==>
              exists p :: 0 <= p < |probe.history| && probe.history[p] == Started(probe.latest.value.revision)
                          && forall q | p <= q < |probe.history| :: !probe.history[q].Failed?
  {
    refreshed, liveThen := Refresh(before, probe, maximumAge, asked, clockStops, source, during, after, resumed);
    Meanwhile(probe, since);
    if refreshed.None? {
      return refreshed, None, liveThen;
    }
    var decision := ValidateCurrent(refreshed.value, now, probe, maximumAge, at);
    if refreshed.value.ready {
      ReadyExactly(refreshed.value, now, probe, maximumAge, at);
      if decision.value.ready {
        LiveMeansAfterEveryFailure(probe, maximumAge, at);
      }
    }
    return refreshed, Some(decision.value), liveThen;
  }
}
