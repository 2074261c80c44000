/** When an object is rescheduled (`pkg/controllers/scheduler/schedulingtriggers.go` and the skip logic of
    `pkg/controllers/scheduler/scheduler.go`). The triggers the object was last scheduled for are kept in an annotation,
    the baseline; each pass compares the current triggers with it. */
module SchedulingTriggers {
  import opened Wrappers

  type Hashes = map<string, string>

  datatype Triggers = Triggers(
    annotationsHash: string, replicas: int, request: map<string, int>, migrationInfo: Option<string>,
        policyName: string,
    policyHash: string, clusters: seq<string>, labels: Hashes, taints: Hashes, apiResources: Hashes)

  /** The baseline annotation. `Canonical` is the text Marshal produces for the triggers, `Other` any other text that
      unmarshals to them. */
  datatype Stored = Absent | Empty | Malformed | Canonical(triggers: Triggers) | Other(triggers: Triggers) {
    predicate Readable() { Canonical? || Other? }
  }

  datatype Toggles = Toggles(policyContent: bool, labels: bool, apiResources: bool, joined: bool)
  datatype Reschedule = Reschedule(disabled: bool, toggles: Option<Toggles>)
  datatype Policy = Policy(reschedule: Option<Reschedule>) {
    predicate Sticky() { reschedule.Some? && reschedule.value.disabled }

    /** Rescheduling is enabled and a trigger block says when. */
    predicate Triggered() { reschedule.Some? && !reschedule.value.disabled && reschedule.value.toggles.Some? }

    function Allows(): Toggles
      requires Triggered()
    {
      reschedule.value.toggles.value
    }
  }

  datatype Reason = ReschedulingDisabled | NoTriggerBlock | PolicyContent | ClusterLabels | APIResources | ClusterJoined

  function Names(clusters: seq<string>): set<string> { set c | c in clusters }

  /** Every hash map has an entry for each listed cluster and no other. */
  predicate WellFormed(t: Triggers) {
    t.labels.Keys == t.taints.Keys == t.apiResources.Keys == Names(t.clusters)
  }

  // ---------- What a change is ----------

  /** A hash recorded in the baseline is gone or different. */
  predicate Lost(latest: Hashes, last: Hashes) {
    exists c :: c in last && (c !in latest || latest[c] != last[c])
  }

  /** The part of the triggers that no toggle can mask. */
  function Stable(t: Triggers): (string, int, map<string, int>, Option<string>, string) {
    (t.annotationsHash, t.replicas, t.request, t.migrationInfo, t.policyName)
  }

  /** The differences a toggle can mask. */
  predicate Differs(r: Reason, latest: Triggers, last: Triggers) {
    match r
    case PolicyContent => latest.policyHash != last.policyHash
    case ClusterLabels => Lost(latest.labels, last.labels)
    case APIResources => Lost(latest.apiResources, last.apiResources)
    case ClusterJoined => Names(last.clusters) < Names(latest.clusters)
    case _ => false
  }

  predicate Permitted(r: Reason, allows: Toggles) {
    match r
    case PolicyContent => allows.policyContent
    case ClusterLabels => allows.labels
    case APIResources => allows.apiResources
    case ClusterJoined => allows.joined
    case _ => false
  }

  /** The object has to be rescheduled. */
  ghost predicate Fires(stored: Stored, latest: Triggers, policy: Option<Policy>) {
    || !stored.Readable()
    || (stored != Canonical(latest) &&
        (|| policy.None?
         || Stable(latest) != Stable(stored.triggers)
         || (policy.value.Triggered() &&
             (|| Lost(latest.taints, stored.triggers.taints)
              || exists r :: Differs(r, latest, stored.triggers) && Permitted(r, policy.value.Allows())))))
  }

  /** A hash of the baseline is gone or different, spelled out. */
  lemma LostIff(latest: Hashes, last: Hashes)
    ensures Lost(latest, last) <==> !(last.Keys <= latest.Keys && forall c :: c in last ==> latest[c] == last[c])
  {
    if Lost(latest, last) { var c :| c in last && (c !in latest || latest[c] != last[c]); }
    if !(last.Keys <= latest.Keys) { var c :| c in last && c !in latest; }
  }

  /** When an object has to be rescheduled, spelled out: it was never scheduled, or its baseline is unreadable, or the
      triggers are not those of the baseline and no policy applies, or something no policy can mask has changed, or its
      policy has a trigger block and a taint of the baseline is gone or different or a switched-on trigger fires. */
  lemma FiresIff(stored: Stored, latest: Triggers, policy: Option<Policy>)
    ensures Fires(stored, latest, policy) <==>
            || stored.Absent? || stored.Empty? || stored.Malformed?
            || (stored != Canonical(latest) &&
                var last := stored.triggers;
                || policy.None?
                || latest.annotationsHash != last.annotationsHash || latest.replicas != last.replicas
                || latest.request != last.request || latest.migrationInfo != last.migrationInfo
                || latest.policyName != last.policyName
                || (&& policy.value.reschedule.Some? && !policy.value.reschedule.value.disabled
                    && policy.value.reschedule.value.toggles.Some?
                    && var on := policy.value.reschedule.value.toggles.value;
                       || Lost(latest.taints, last.taints)
                       || (on.policyContent && latest.policyHash != last.policyHash)
                       || (on.labels && Lost(latest.labels, last.labels))
                       || (on.apiResources && Lost(latest.apiResources, last.apiResources))
                       || (on.joined && JoinedOnly(latest, last))))
  {
    if stored.Readable() && policy.Some? && policy.value.Triggered() {
      var last, on := stored.triggers, policy.value.Allows();
      JoinedIff(latest, last);
      assert (exists r :: Differs(r, latest, last) && Permitted(r, on)) <==>
          || (Differs(PolicyContent, latest, last) && Permitted(PolicyContent, on))
          || (Differs(ClusterLabels, latest, last) && Permitted(ClusterLabels, on))
          || (Differs(APIResources, latest, last) && Permitted(APIResources, on))
          || (Differs(ClusterJoined, latest, last) && Permitted(ClusterJoined, on));
    }
  }

  /** All clusters of the baseline are still there, and there is another one. */
  predicate JoinedOnly(latest: Triggers, last: Triggers) {
    && (forall c :: c in last.clusters ==> c in latest.clusters)
    && exists c :: c in latest.clusters && c !in last.clusters
  }

  lemma JoinedIff(latest: Triggers, last: Triggers)
    ensures Names(last.clusters) < Names(latest.clusters) <==> JoinedOnly(latest, last)
  {
    if Names(last.clusters) < Names(latest.clusters) {
      forall c | c in last.clusters ensures c in latest.clusters { assert c in Names(last.clusters); }
      var c :| c in Names(latest.clusters) && c !in Names(last.clusters);
    }
    if JoinedOnly(latest, last) {
      var c :| c in latest.clusters && c !in last.clusters;
      assert c in Names(latest.clusters) && c !in Names(last.clusters);
    }
  }

  /** The reasons a deferred reschedule is recorded with, spelled out. */
  lemma DeferredForIff(reasons: seq<Reason>, latest: Triggers, last: Triggers)
    requires DeferredFor(reasons, latest, last)
    ensures PolicyContent in reasons <==> latest.policyHash != last.policyHash
    ensures ClusterLabels in reasons <==> Lost(latest.labels, last.labels)
    ensures APIResources in reasons <==> Lost(latest.apiResources, last.apiResources)
    ensures ClusterJoined in reasons <==> JoinedOnly(latest, last)
    ensures ReschedulingDisabled !in reasons && NoTriggerBlock !in reasons
  {
    JoinedIff(latest, last);
  }

  // ---------- The comparison ----------

  method IsClusterTriggerChanged(newClusters: Hashes, oldClusters: Hashes) returns (changed: bool)
    ensures changed == Lost(newClusters, oldClusters)
  {
    if |newClusters| == 0 {
      assert newClusters == map[];
      assert |oldClusters| != 0 ==> exists c :: c in oldClusters;
      return |oldClusters| != 0;
    }
    var todo := oldClusters.Keys;
    while todo != {}
      invariant todo <= oldClusters.Keys
      invariant forall c :: c in oldClusters.Keys - todo ==> c in newClusters && newClusters[c] == oldClusters[c]
      decreases todo
    {
      var cluster :| cluster in todo;
      if cluster !in newClusters || newClusters[cluster] != oldClusters[cluster] { return true; }
      todo := todo - {cluster};
    }
    return false;
  }

  method CompareStableTriggers(latest: Triggers, last: Triggers) returns (changed: bool)
    ensures changed == (Stable(latest) != Stable(last))
  {
    if latest.annotationsHash != last.annotationsHash || latest.replicas != last.replicas ||
       latest.request != last.request || latest.policyName != last.policyName {
      return true;
    }
    if latest.migrationInfo.Some? {
      return last.migrationInfo.None? || last.migrationInfo.value != latest.migrationInfo.value;
    }
    return last.migrationInfo.Some?;
  }

  /** The reasons the toggles of a policy defer a reschedule for. */
  ghost predicate DeferredFor(reasons: seq<Reason>, latest: Triggers, last: Triggers) {
    forall r :: r in reasons <==> Differs(r, latest, last)
  }

  /** The comparison under a trigger block. */
  method CompareTriggered(latest: Triggers, last: Triggers, allows: Toggles)
    returns (changed: bool, reasons: seq<Reason>)
    ensures changed <==>
            (|| Lost(latest.taints, last.taints)
             || exists r :: Differs(r, latest, last) && Permitted(r, allows))
    ensures changed ==> reasons == []
    ensures !changed ==> DeferredFor(reasons, latest, last)
  {
    reasons := [];
    if latest.policyHash != last.policyHash {
      assert Differs(PolicyContent, latest, last);
      if allows.policyContent { assert Permitted(PolicyContent, allows); return true, []; }
      reasons := reasons + [PolicyContent];
    }
    var labels := IsClusterTriggerChanged(latest.labels, last.labels);
    if labels {
      assert Differs(ClusterLabels, latest, last);
      if allows.labels { assert Permitted(ClusterLabels, allows); return true, []; }
      reasons := reasons + [ClusterLabels];
    }
    var taints := IsClusterTriggerChanged(latest.taints, last.taints);
    if taints { return true, []; }
    var apiResources := IsClusterTriggerChanged(latest.apiResources, last.apiResources);
    if apiResources {
      assert Differs(APIResources, latest, last);
      if allows.apiResources { assert Permitted(APIResources, allows); return true, []; }
      reasons := reasons + [APIResources];
    }
    var newClusters, oldClusters := Names(latest.clusters), Names(last.clusters);
    SubsetWithOtherSize(oldClusters, newClusters);
    if oldClusters <= newClusters && |newClusters| != |oldClusters| {
      assert Differs(ClusterJoined, latest, last);
      if allows.joined { assert Permitted(ClusterJoined, allows); return true, []; }
      reasons := reasons + [ClusterJoined];
    }
    return false, reasons;
  }

  lemma SubsetWithOtherSize(a: set<string>, b: set<string>)
    ensures a <= b && |a| != |b| <==> a < b
  {
    if a <= b {
      assert b == a + (b - a);
      assert |b - a| == 0 <==> b - a == {};
    }
  }

  /** computeSchedulingAnnotations. A pass that does not fire hands back the stored baseline untouched. */
  method ComputeSchedulingAnnotations(latest: Triggers, stored: Stored, policy: Option<Policy>)
    returns (triggers: Stored, deferred: seq<Reason>, changed: bool)
    ensures changed == Fires(stored, latest, policy)
    ensures triggers == if changed then Canonical(latest) else stored
    ensures changed || stored == Canonical(latest) ==> deferred == []
    ensures !changed && stored != Canonical(latest) && policy.value.Triggered() ==>
              DeferredFor(deferred, latest, stored.triggers)
    ensures !changed && stored != Canonical(latest) && !policy.value.Triggered() ==>
              deferred == [if policy.value.Sticky() then ReschedulingDisabled else NoTriggerBlock]
  {
    triggers, deferred := Canonical(latest), [];
    if stored.Absent? || stored.Empty? || stored == triggers || policy.None? {
      return triggers, [], stored != triggers;
    }
    if stored.Malformed? { return triggers, [], true; }
    var stable := CompareStableTriggers(latest, stored.triggers);
    if stable { return triggers, [], true; }
    if policy.value.Sticky() { return stored, [ReschedulingDisabled], false; }
    if policy.value.reschedule.None? || policy.value.reschedule.value.toggles.None? {
      return stored, [NoTriggerBlock], false;
    }
    var fired, reasons := CompareTriggered(latest, stored.triggers, policy.value.Allows());
    if fired { return triggers, [], true; }
    return stored, reasons, false;
  }

  // ---------- What the comparison misses ----------

  /** The same triggers, the clusters perhaps listed in another order. */
  predicate SameUpToListing(a: Triggers, b: Triggers) {
    Names(a.clusters) == Names(b.clusters) && a == b.(clusters := a.clusters)
  }

  lemma KeptHashes(latest: Hashes, last: Hashes)
    requires !Lost(latest, last) && latest.Keys == last.Keys
    ensures latest == last
  {}

  /** A pass under a trigger block that neither fires nor names a reason has seen no difference at all: nothing drifts
      away from the baseline unnoticed. */
  lemma QuietMeansSame(latest: Triggers, last: Triggers, stored: Stored, policy: Policy)
    requires WellFormed(latest) && WellFormed(last) && policy.Triggered()
    requires stored == Canonical(last) || stored == Other(last)
    ensures !Fires(stored, latest, Some(policy)) && (forall r :: !Differs(r, latest, last)) <==>
            SameUpToListing(latest, last)
  {
    if !Fires(stored, latest, Some(policy)) && (forall r :: !Differs(r, latest, last)) && stored != Canonical(latest) {
      assert !Differs(PolicyContent, latest, last) && !Differs(ClusterLabels, latest, last);
      assert !Differs(APIResources, latest, last) && !Differs(ClusterJoined, latest, last);
      forall c | c in last.taints ensures c in latest.taints { }
      assert Names(latest.clusters) == Names(last.clusters);
      KeptHashes(latest.labels, last.labels);
      KeptHashes(latest.taints, last.taints);
      KeptHashes(latest.apiResources, last.apiResources);
    }
  }

  /** When a cluster of the baseline is gone the object is rescheduled with every toggle off; only a policy that
      disables rescheduling, or has no trigger block, keeps it where it is. */
  lemma RemovalFires(stored: Stored, latest: Triggers, policy: Option<Policy>, cluster: string)
    requires stored.Readable() && WellFormed(stored.triggers) && WellFormed(latest)
    requires cluster in stored.triggers.clusters && cluster !in latest.clusters
    ensures Fires(stored, latest, policy) <==>
            policy.None? || policy.value.Triggered() || Stable(latest) != Stable(stored.triggers)
  {
    assert cluster in Names(stored.triggers.clusters) && cluster !in Names(latest.clusters);
    assert cluster in stored.triggers.taints && cluster !in latest.taints;
  }

  // ---------- Runs ----------

  /** One pass over an object: the triggers it saw, the policy it matched, and whether the object carried the
      no-scheduling annotation. */
  datatype Pass = Pass(latest: Triggers, policy: Option<Policy>, noScheduling: bool)

  ghost predicate Fired(stored: Stored, pass: Pass) {
    Fires(stored, pass.latest, pass.policy)
  }

  ghost function Step(stored: Stored, pass: Pass): Stored {
    if Fired(stored, pass) then Canonical(pass.latest) else stored
  }

  ghost function After(stored: Stored, passes: seq<Pass>): Stored {
    if passes == [] then stored else Step(After(stored, passes[..|passes| - 1]), passes[|passes| - 1])
  }

  ghost predicate FiredAt(stored: Stored, passes: seq<Pass>, i: nat)
    requires i < |passes|
  {
    Fired(After(stored, passes[..i]), passes[i])
  }

  /** As long as no pass fires the baseline stays what it was. */
  lemma {:induction false} QuietRunKeepsBaseline(stored: Stored, passes: seq<Pass>, i: nat, j: nat)
    requires i <= j <= |passes|
    requires forall k :: i <= k < j ==> !FiredAt(stored, passes, k)
    ensures After(stored, passes[..j]) == After(stored, passes[..i])
  {
    if i < j {
      QuietRunKeepsBaseline(stored, passes, i, j - 1);
      assert passes[..j][..j - 1] == passes[..j - 1];
      assert !FiredAt(stored, passes, j - 1);
    }
  }

  /** After any run the baseline holds the triggers of the last pass that fired. */
  lemma BaselineIsLastFired(stored: Stored, passes: seq<Pass>, i: nat)
    requires i < |passes| && FiredAt(stored, passes, i)
    requires forall k :: i < k < |passes| ==> !FiredAt(stored, passes, k)
    ensures After(stored, passes) == Canonical(passes[i].latest)
  {
    QuietRunKeepsBaseline(stored, passes, i + 1, |passes|);
    assert passes[..|passes|] == passes;
    assert passes[..i + 1][..i] == passes[..i];
  }

  /** A deferred reschedule is not lost. Whatever number of passes defer, the next pass is judged against the
      baseline of the last pass that fired; so it fires as soon as a difference from that baseline meets a toggle
      that permits it. */
  lemma DeferredIsReevaluated(stored: Stored, passes: seq<Pass>, i: nat, j: nat)
    requires i <= j < |passes|
    requires forall k :: i <= k < j ==> !FiredAt(stored, passes, k)
    ensures FiredAt(stored, passes, j) <==> Fired(After(stored, passes[..i]), passes[j])
  {
    QuietRunKeepsBaseline(stored, passes, i, j);
  }

  lemma DeferredFiresOncePermitted(stored: Stored, passes: seq<Pass>, i: nat, j: nat, r: Reason)
    requires i < j < |passes|
    requires forall k :: i <= k < j ==> !FiredAt(stored, passes, k)
    requires After(stored, passes[..i]).Readable()
    requires Differs(r, passes[j].latest, After(stored, passes[..i]).triggers)
    requires passes[j].policy.Some? && passes[j].policy.value.Triggered()
    requires Permitted(r, passes[j].policy.value.Allows())
    ensures FiredAt(stored, passes, j)
    ensures After(stored, passes[..j + 1]) == Canonical(passes[j].latest)
  {
    DeferredIsReevaluated(stored, passes, i, j);
    var last := After(stored, passes[..i]).triggers;
    DifferentTriggers(r, passes[j].latest, last);
    assert passes[..j + 1][..j] == passes[..j];
  }

  lemma DifferentTriggers(r: Reason, latest: Triggers, last: Triggers)
    requires Differs(r, latest, last)
    ensures latest != last
  {}

  /** Every baseline the scheduler writes has one hash per cluster. */
  lemma {:induction false} RunKeepsWellFormed(stored: Stored, passes: seq<Pass>)
    requires stored.Readable() ==> WellFormed(stored.triggers)
    requires forall p :: p in passes ==> WellFormed(p.latest)
    ensures After(stored, passes).Readable() ==> WellFormed(After(stored, passes).triggers)
  {
    if passes != [] {
      RunKeepsWellFormed(stored, passes[..|passes| - 1]);
      assert passes[|passes| - 1] in passes;
    }
  }

  /** The one way to lose a change: a pass that fires while the object carries the no-scheduling annotation moves the
      baseline without scheduling. Until the triggers change once more no later pass fires, with or without the
      annotation. */
  lemma {:induction false} NoSchedulingConsumesTheTrigger(stored: Stored, pass: Pass, later: seq<Pass>)
    requires pass.noScheduling && Fired(stored, pass)
    requires forall p :: p in later ==> p.latest == pass.latest
    ensures After(Step(stored, pass), later) == Canonical(pass.latest)
    ensures forall i :: 0 <= i < |later| ==> !FiredAt(Step(stored, pass), later, i)
  {
    if later != [] {
      var n := |later| - 1;
      NoSchedulingConsumesTheTrigger(stored, pass, later[..n]);
      assert later[n] in later;
      forall i | 0 <= i < |later| ensures !FiredAt(Step(stored, pass), later, i) {
        if i < n {
          assert !FiredAt(Step(stored, pass), later[..n], i);
          assert later[..n][..i] == later[..i];
        }
      }
    }
  }

  /** The pass goes on to schedule the object. */
  predicate Schedules(fired: bool, pass: Pass) { fired && !pass.noScheduling }

  /** What the baseline would be if only passes that schedule moved it: the triggers the object was last
      scheduled for. */
  ghost function LastScheduled(stored: Stored, passes: seq<Pass>): Stored {
    if passes == [] then stored
    else
      var n := |passes| - 1;
      if Schedules(FiredAt(stored, passes, n), passes[n]) then Canonical(passes[n].latest)
      else LastScheduled(stored, passes[..n])
  }

  /** Pass `i` is the last one that fired. */
  ghost predicate LastFired(stored: Stored, passes: seq<Pass>, i: nat) {
    i < |passes| && FiredAt(stored, passes, i) && forall j :: i < j < |passes| ==> !FiredAt(stored, passes, j)
  }

  lemma {:induction false} QuietRunKeepsLastScheduled(stored: Stored, passes: seq<Pass>, i: nat)
    requires i <= |passes| && forall j :: i <= j < |passes| ==> !FiredAt(stored, passes, j)
    ensures LastScheduled(stored, passes) == LastScheduled(stored, passes[..i])
  {
    if i < |passes| {
      var n := |passes| - 1;
      forall j | i <= j < n ensures !FiredAt(stored, passes[..n], j) {
        assert passes[..n][..j] == passes[..j];
        assert !FiredAt(stored, passes, j);
      }
      QuietRunKeepsLastScheduled(stored, passes[..n], i);
      assert passes[..n][..i] == passes[..i];
    } else {
      assert passes[..i] == passes;
    }
  }

  lemma LastFiredDecides(stored: Stored, passes: seq<Pass>, i: nat)
    requires LastFired(stored, passes, i)
    ensures After(stored, passes) == Canonical(passes[i].latest)
    ensures LastScheduled(stored, passes) ==
            if passes[i].noScheduling then LastScheduled(stored, passes[..i]) else Canonical(passes[i].latest)
  {
    BaselineIsLastFired(stored, passes, i);
    QuietRunKeepsLastScheduled(stored, passes, i + 1);
    assert passes[..i + 1][..i] == passes[..i];
    assert FiredAt(stored, passes[..i + 1], i) == FiredAt(stored, passes, i);
  }

  lemma LastFiredUnique(stored: Stored, passes: seq<Pass>, i: nat, j: nat)
    requires LastFired(stored, passes, i) && LastFired(stored, passes, j)
    ensures i == j
  {}

  /** The last pass that fired did so under the annotation, for triggers the object was not scheduled for. */
  ghost predicate Consumed(stored: Stored, passes: seq<Pass>, i: nat) {
    && LastFired(stored, passes, i) && passes[i].noScheduling
    && LastScheduled(stored, passes[..i]) != Canonical(passes[i].latest)
  }

  /** Over every run, the object is scheduled for the triggers its baseline holds exactly when no such pass is the
      last one that fired: the last one scheduled it, or fired under the annotation for what it was scheduled for
      already. */
  lemma BaselineIsLastScheduled(stored: Stored, passes: seq<Pass>)
    ensures After(stored, passes) == LastScheduled(stored, passes) <==> !exists i: nat :: Consumed(stored, passes, i)
  {
    if i: nat :| LastFired(stored, passes, i) {
      LastFiredDecides(stored, passes, i);
      forall j: nat | Consumed(stored, passes, j) ensures j == i { LastFiredUnique(stored, passes, i, j); }
      assert Consumed(stored, passes, i) || After(stored, passes) == LastScheduled(stored, passes);
    } else {
      NoneFired(stored, passes, |passes|);
      NeverFired(stored, passes);
      assert forall i: nat :: !Consumed(stored, passes, i);
    }
  }

  lemma NeverFired(stored: Stored, passes: seq<Pass>)
    requires forall j :: 0 <= j < |passes| ==> !FiredAt(stored, passes, j)
    ensures After(stored, passes) == LastScheduled(stored, passes) == stored
  {
    QuietRunKeepsBaseline(stored, passes, 0, |passes|);
    QuietRunKeepsLastScheduled(stored, passes, 0);
    assert passes[..0] == [] && passes[..|passes|] == passes;
  }

  /** If any pass fired there is a last one. */
  lemma {:induction false} NoneFired(stored: Stored, passes: seq<Pass>, n: nat)
    requires n <= |passes| && forall j :: n <= j < |passes| ==> !FiredAt(stored, passes, j)
    requires forall i: nat :: !LastFired(stored, passes, i)
    ensures forall j :: 0 <= j < |passes| ==> !FiredAt(stored, passes, j)
  {
    if n > 0 {
      assert !LastFired(stored, passes, n - 1);
      NoneFired(stored, passes, n - 1);
    }
  }

  /** In particular as long as no pass fires under the annotation, whether or not the annotation is there, no change is
      left unscheduled. */
  lemma NothingLostWithoutAnnotation(stored: Stored, passes: seq<Pass>)
    requires forall i :: 0 <= i < |passes| && FiredAt(stored, passes, i) ==> !passes[i].noScheduling
    ensures After(stored, passes) == LastScheduled(stored, passes)
  {
    BaselineIsLastScheduled(stored, passes);
    forall i: nat ensures !Consumed(stored, passes, i) {
      if LastFired(stored, passes, i) { assert FiredAt(stored, passes, i); }
    }
  }

  // ---------- The pass itself ----------

  datatype Cluster = Cluster(name: string, labels: string, taints: string, apiResources: string)
  datatype PolicyFacts = PolicyFacts(name: string, hash: string, autoMigration: bool)

  function ClusterNames(clusters: seq<Cluster>): seq<string> {
    seq(|clusters|, i requires 0 <= i < |clusters| => clusters[i].name)
  }

  predicate Holds(hashes: Hashes, name: string, hash: string) {
    name in hashes && hashes[name] == hash
  }

  /** No cluster after position `k`, up to `n`, has the name of the one there. */
  predicate LastOfName(clusters: seq<Cluster>, k: nat, n: nat)
    requires k < n <= |clusters|
  {
    forall j :: k < j < n ==> clusters[j].name != clusters[k].name
  }

  /** Filling a map cluster by cluster, a later cluster of the same name winning. */
  function Filled(clusters: seq<Cluster>, hash: Cluster -> string): Hashes {
    if clusters == [] then map[]
    else
      var n := |clusters| - 1;
      Filled(clusters[..n], hash)[clusters[n].name := hash(clusters[n])]
  }

  lemma {:induction false} FilledKeys(clusters: seq<Cluster>, hash: Cluster -> string)
    ensures Filled(clusters, hash).Keys == Names(ClusterNames(clusters))
  {
    if clusters != [] {
      var n := |clusters| - 1;
      FilledKeys(clusters[..n], hash);
      assert clusters == clusters[..n] + [clusters[n]];
      ClusterNamesSnoc(clusters[..n], clusters[n]);
    }
  }

  lemma {:induction false} FilledHolds(clusters: seq<Cluster>, hash: Cluster -> string, i: nat)
    requires i < |clusters| && LastOfName(clusters, i, |clusters|)
    ensures Holds(Filled(clusters, hash), clusters[i].name, hash(clusters[i]))
  {
    var n := |clusters| - 1;
    if i < n {
      assert clusters[n].name != clusters[i].name;
      FilledHolds(clusters[..n], hash, i);
    }
  }

  /** `t` lists the clusters in order, with one hash of each kind per cluster, and holds the rest as read. */
  predicate Describes(t: Triggers, annotationsHash: string, replicas: int, request: map<string, int>,
                      migrationInfo: Option<string>, policy: Option<PolicyFacts>, clusters: seq<Cluster>)
  {
    && WellFormed(t) && t.clusters == ClusterNames(clusters)
    && (forall i :: 0 <= i < |clusters| && LastOfName(clusters, i, |clusters|) ==>
          && Holds(t.labels, clusters[i].name, clusters[i].labels)
          && Holds(t.taints, clusters[i].name, clusters[i].taints)
          && Holds(t.apiResources, clusters[i].name, clusters[i].apiResources))
    && Stable(t) == (annotationsHash, replicas, request,
                     if policy.Some? && policy.value.autoMigration then migrationInfo else None,
                     if policy.Some? then policy.value.name else "")
    && t.policyHash == if policy.Some? then policy.value.hash else ""
  }

  /** The hash of each cluster under its name, as getClusterLabelsHashes and its two siblings collect them. */
  method HashClusters(clusters: seq<Cluster>, hash: Cluster -> string) returns (hashes: Hashes)
    ensures hashes.Keys == Names(ClusterNames(clusters))
    ensures forall i :: 0 <= i < |clusters| && LastOfName(clusters, i, |clusters|) ==>
              Holds(hashes, clusters[i].name, hash(clusters[i]))
  {
    hashes := map[];
    for i := 0 to |clusters|
      invariant hashes == Filled(clusters[..i], hash)
    {
      assert clusters[..i + 1][..i] == clusters[..i];
      hashes := hashes[clusters[i].name := hash(clusters[i])];
    }
    assert clusters[..|clusters|] == clusters;
    FilledKeys(clusters, hash);
    forall i | 0 <= i < |clusters| && LastOfName(clusters, i, |clusters|)
      ensures Holds(hashes, clusters[i].name, hash(clusters[i]))
    {
      FilledHolds(clusters, hash, i);
    }
  }

  lemma ClusterNamesSnoc(clusters: seq<Cluster>, c: Cluster)
    ensures ClusterNames(clusters + [c]) == ClusterNames(clusters) + [c.name]
    ensures Names(ClusterNames(clusters + [c])) == Names(ClusterNames(clusters)) + {c.name}
  {
    assert ClusterNames(clusters + [c]) == ClusterNames(clusters) + [c.name];
  }

  method ComputeSchedulingTriggers(annotationsHash: string, replicas: Result<int>, request: Result<map<string, int>>,
                                   migrationInfo: Option<string>, policy: Option<PolicyFacts>, clusters: seq<Cluster>)
    returns (r: Result<Triggers>)
    ensures r.Ok? <==> replicas.Ok? && request.Ok?
    ensures r.Ok? ==> Describes(r.value, annotationsHash, replicas.value, request.value, migrationInfo, policy,
        clusters)
  {
    if replicas.Err? || request.Err? { return Err; }
    var t := CollectTriggers(annotationsHash, replicas.value, request.value, migrationInfo, policy, clusters);
    return Ok(t);
  }

  method CollectTriggers(annotationsHash: string, replicas: int, request: map<string, int>,
                         migrationInfo: Option<string>, policy: Option<PolicyFacts>, clusters: seq<Cluster>)
    returns (t: Triggers)
    ensures Describes(t, annotationsHash, replicas, request, migrationInfo, policy, clusters)
  {
    var name, hash, info := "", "", None;
    if policy.Some? {
      name, hash := policy.value.name, policy.value.hash;
      if policy.value.autoMigration { info := migrationInfo; }
    }
    var names: seq<string> := [];
    for i := 0 to |clusters|
      invariant names == ClusterNames(clusters)[..i]
    {
      names := names + [clusters[i].name];
    }
    var labels := HashClusters(clusters, (c: Cluster) => c.labels);
    var taints := HashClusters(clusters, (c: Cluster) => c.taints);
    var apiResources := HashClusters(clusters, (c: Cluster) => c.apiResources);
    t := Triggers(annotationsHash, replicas, request, info, name, hash, names, labels, taints, apiResources);
  }

  class FederatedObject {
    var triggers: Stored
    var deferred: Option<seq<Reason>>

    /** updateSchedulingAnnotations: the change flag is exact. */
    method UpdateSchedulingAnnotations(text: Stored, reasons: seq<Reason>) returns (changed: bool)
      modifies this
      ensures triggers == text && deferred == if reasons == [] then None else Some(reasons)
      ensures changed <==> triggers != old(triggers) || deferred != old(deferred)
    {
      var triggersChanged := triggers != text;
      triggers := text;
      if |reasons| == 0 {
        var removed := deferred.Some?;
        deferred := None;
        return triggersChanged || removed;
      }
      var added := deferred != Some(reasons);
      deferred := Some(reasons);
      return triggersChanged || added;
    }

    /** The skip logic of prepareToSchedule. A skipped pass still stores what it found out: if it does not write the
        object, nothing of it changed. `pendingUpdated` is whether the scheduler left the pending list in this pass. */
    method PrepareToSchedule(pass: Pass, pendingUpdated: bool) returns (skip: bool, write: bool)
      modifies this
      ensures triggers == Step(old(triggers), pass)
      ensures skip <==> !Schedules(Fired(old(triggers), pass), pass)
      ensures write <==> skip && (pendingUpdated || triggers != old(triggers) || deferred != old(deferred))
      ensures Fired(old(triggers), pass) || old(triggers) == Canonical(pass.latest) ==> deferred.None?
      ensures var deferring := !Fired(old(triggers), pass) && old(triggers) != Canonical(pass.latest);
              deferring && pass.policy.value.Triggered() ==>
                forall r :: (deferred.Some? && r in deferred.value) <==> Differs(r, pass.latest, old(triggers).triggers)
    {
      var text, reasons, fired := ComputeSchedulingAnnotations(pass.latest, triggers, pass.policy);
      var annotationChanged := UpdateSchedulingAnnotations(text, reasons);
      skip := false;
      if !fired {
        skip := true;
      } else if pass.noScheduling {
        skip := true;
      }
      write := skip && (pendingUpdated || annotationChanged);
    }
  }
}
