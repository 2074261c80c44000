/** Damping of cluster status changes (`pkg/controllers/federatedcluster/cluster_status_cache.go`). */
module ClusterStatus {
  import opened Wrappers

  /** A condition: the status that is compared, and the reason, message and times that are carried along. */
  datatype Condition = Condition(status: string, details: string)

  datatype Pair = Pair(offline: Condition, ready: Condition)

  datatype Saved = Saved(conditions: Pair, probeTimestamp: int)

  /** Go's zero time, which an entry has that was not written because of a change. */
  const ZERO_TIME: int := 0

  predicate Same(a: Pair, b: Pair) {
    a.offline.status == b.offline.status && a.ready.status == b.ready.status
  }

  /** The returned conditions and the entry left in the store. `current` is None when either condition is missing. */
  function Adjust(saved: Option<Saved>, current: Option<Pair>, observed: Pair, now: int, threshold: int): (Pair, Saved)
  {
    if saved.None? then
      var initial := if current.Some? then current.value else observed;
      (initial, Saved(initial, ZERO_TIME))
    else if current.None? then (observed, saved.value)
    else
      var s := if Same(saved.value.conditions, observed) then saved.value else Saved(observed, now);
      if !Same(current.value, observed) && now < s.probeTimestamp + threshold then (current.value, s) else (observed, s)
  }

  class Store {
    var data: map<string, Saved>
    const threshold: int

    constructor (threshold: int)
      ensures data == map[] && this.threshold == threshold
    {
      data := map[];
      this.threshold := threshold;
    }

    method ThresholdAdjustedStatusCondition(cluster: string, current: Option<Pair>, observed: Pair, now: int)
      returns (r: Pair)
      modifies this
      ensures var saved := if cluster in old(data) then Some(old(data)[cluster]) else None;
              (r, data) == (Adjust(saved, current, observed, now, threshold).0,
                            old(data)[cluster := Adjust(saved, current, observed, now, threshold).1])
    {
      if cluster !in data {
        if current.Some? {
          data := data[cluster := Saved(current.value, ZERO_TIME)];
          return current.value;
        }
        data := data[cluster := Saved(observed, ZERO_TIME)];
        return observed;
      }
      var saved := data[cluster];
      assert data[cluster := saved] == data;
      if current.None? { return observed; }
      if saved.conditions.offline.status != observed.offline.status ||
         saved.conditions.ready.status != observed.ready.status {
        saved := Saved(observed, now);
        data := data[cluster := saved];
      }
      if current.value.offline.status != observed.offline.status ||
         current.value.ready.status != observed.ready.status {
        if now < saved.probeTimestamp + threshold { return current.value; }
      }
      return observed;
    }
  }

  // ---------- Runs of one cluster ----------

  /** `reported` is what is persisted in the cluster's status; a restart loses the store but not the status. */
  datatype State = State(saved: Option<Saved>, reported: Option<Pair>)

  datatype Event = Probe(observed: Pair, time: int) | Restart

  function Next(s: State, e: Event, threshold: int): State {
    match e
    case Restart => s.(saved := None)
    case Probe(observed, now) =>
      var (r, saved) := Adjust(s.saved, s.reported, observed, now, threshold);
      State(Some(saved), Some(r))
  }

  function Run(s: State, es: seq<Event>, threshold: int): State {
    if es == [] then s else Next(Run(s, es[..|es| - 1], threshold), es[|es| - 1], threshold)
  }

  /** No probe has been made since the start or the last restart: the next one only fills the store. */
  predicate Fresh(es: seq<Event>) {
    es == [] || es[|es| - 1].Restart?
  }

  datatype Streak = Streak(since: int, observed: Pair)

  /** The latest unbroken series of probes with one observation, leaving out the probe that filled the store. */
  function LatestStreak(es: seq<Event>): Option<Streak> {
    if es == [] || es[|es| - 1].Restart? then None
    else
      var init, last := es[..|es| - 1], es[|es| - 1];
      var before := LatestStreak(init);
      if Fresh(init) then None
      else if before.Some? && Same(before.value.observed, last.observed)
          then Some(Streak(before.value.since, last.observed))
      else Some(Streak(last.time, last.observed))
  }

  /** What is reported is the same if both statuses are, whatever the details. */
  predicate SameStatuses(a: Pair, b: Pair) {
    (a.offline.status, a.ready.status) == (b.offline.status, b.ready.status)
  }

  /** What a streak is: from some probe on, made at its `since`, every event was a probe with the latest observation,
      and the probe before that one saw something else or only filled the store. */
  lemma {:induction false} StreakMeaning(es: seq<Event>) returns (k: nat)
    requires LatestStreak(es).Some?
    ensures k < |es| && es[k].Probe? && es[k].time == LatestStreak(es).value.since
    ensures forall i :: k <= i < |es| ==> es[i].Probe? && SameStatuses(es[i].observed, es[|es| - 1].observed)
    ensures k > 0 && es[k - 1].Probe?
    ensures Fresh(es[..k - 1]) || !SameStatuses(es[k - 1].observed, es[|es| - 1].observed)
  {
    var init, last := es[..|es| - 1], es[|es| - 1];
    var before := LatestStreak(init);
    if before.Some? && Same(before.value.observed, last.observed) {
      k := StreakMeaning(init);
      forall i | k <= i < |es| ensures es[i].Probe? && SameStatuses(es[i].observed, last.observed) {
        if i < |init| { assert init[i] == es[i]; }
      }
      assert init[..k - 1] == es[..k - 1] && init[k - 1] == es[k - 1];
    } else {
      k := |es| - 1;
      assert es[..k] == init;
    }
  }

  /** The store knows what the current streak is whenever the report has not caught up with it. */
  ghost predicate Tracks(s: State, es: seq<Event>) {
    if Fresh(es) then s.saved.None?
    else
      && s.saved.Some? && s.reported.Some?
      && (|| Same(s.saved.value.conditions, s.reported.value)
          || (&& LatestStreak(es).Some? && Same(s.saved.value.conditions, LatestStreak(es).value.observed)
              && s.saved.value.probeTimestamp == LatestStreak(es).value.since))
      && (LatestStreak(es).Some? ==> Same(s.saved.value.conditions, LatestStreak(es).value.observed))
  }

  lemma {:induction false} RunTracks(reported: Option<Pair>, es: seq<Event>, threshold: int)
    ensures Tracks(Run(State(None, reported), es, threshold), es)
  {
    if es != [] { RunTracks(reported, es[..|es| - 1], threshold); }
  }

  /** After the first probe since a restart, a probe changes what is reported exactly when it observes something else
      and has done so, without interruption, for at least the threshold. */
  lemma ReportChangesIff(reported: Option<Pair>, es: seq<Event>, observed: Pair, now: int, threshold: int)
    requires !Fresh(es)
    ensures var s := Run(State(None, reported), es, threshold);
            var all := es + [Probe(observed, now)];
            var s' := Run(State(None, reported), all, threshold);
            && s.reported.Some? && s'.reported.Some? && LatestStreak(all).Some?
            && (!SameStatuses(s'.reported.value, s.reported.value) <==>
                  !SameStatuses(observed, s.reported.value) && now - LatestStreak(all).value.since >= threshold)
            && s'.reported.value == if SameStatuses(observed, s.reported.value)
                                       || now - LatestStreak(all).value.since >= threshold then observed
                                    else s.reported.value
  {
    var all := es + [Probe(observed, now)];
    assert all[..|all| - 1] == es;
    RunTracks(reported, es, threshold);
  }

  /** The first probe since a restart never changes a report that exists. */
  lemma FirstProbeKeepsReport(reported: Option<Pair>, es: seq<Event>, observed: Pair, now: int, threshold: int)
    requires Fresh(es)
    ensures var s := Run(State(None, reported), es, threshold);
            var s' := Run(State(None, reported), es + [Probe(observed, now)], threshold);
            s'.reported == if s.reported.Some? then s.reported else Some(observed)
  {
    var all := es + [Probe(observed, now)];
    assert all[..|all| - 1] == es;
    RunTracks(reported, es, threshold);
  }

  ghost predicate TimeNeverGoesBack(es: seq<Event>) {
    forall i, j :: 0 <= i < j < |es| && es[i].Probe? && es[j].Probe? ==> es[i].time <= es[j].time
  }

  /** Whenever a probe changes the report, every probe of the last `threshold` saw the new pair: none since saw anything
      else and the store was never lost in between. */
  lemma ChangeNeedsAgreement(reported: Option<Pair>, es: seq<Event>, observed: Pair, now: int, threshold: int)
    requires TimeNeverGoesBack(es + [Probe(observed, now)])
    requires Run(State(None, reported), es, threshold).reported.Some?
    requires var s := Run(State(None, reported), es, threshold);
             var s' := Run(State(None, reported), es + [Probe(observed, now)], threshold);
             !SameStatuses(s'.reported.value, s.reported.value)
    ensures var all := es + [Probe(observed, now)];
            && (exists k ::
                  && 0 <= k < |all| && all[k].Probe? && all[k].time <= now - threshold
                  && SameStatuses(all[k].observed, observed))
            && forall i :: 0 <= i < |all| && all[i].Probe? && all[i].time > now - threshold ==>
                SameStatuses(all[i].observed, observed)
  {
    var all := es + [Probe(observed, now)];
    assert all[..|all| - 1] == es;
    if Fresh(es) { FirstProbeKeepsReport(reported, es, observed, now, threshold); }
    ReportChangesIff(reported, es, observed, now, threshold);
    var k := StreakMeaning(all);
    forall i | 0 <= i < |all| && all[i].Probe? && all[i].time > now - threshold
      ensures SameStatuses(all[i].observed, observed)
    {
      assert all[i].time > all[k].time;
    }
  }
}
