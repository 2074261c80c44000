/** Auto-migration: how many pods of a cluster count as unschedulable, when that count will next rise, and what
    capacity is reported to the scheduler (`pkg/controllers/automigration/util.go` and estimateCapacity in
    `controller.go`). Times and durations are integers on one scale. */
module AutoMigration {
  import opened Wrappers

  datatype Status = True | False | Unknown
  datatype Condition = Condition(kind: string, status: Status, reason: string, since: int)
  datatype Pod = Pod(deleting: bool, conditions: seq<Condition>)

  function PodScheduled(): string { "PodScheduled" }
  function Unschedulable(): string { "Unschedulable" }

  /** The first PodScheduled condition of a pod. */
  function ScheduledCondition(cs: seq<Condition>): Option<Condition> {
    if cs == [] then None
    else if cs[0].kind == PodScheduled() then Some(cs[0])
    else ScheduledCondition(cs[1..])
  }

  /** `cs[i]` is the first condition of its kind. */
  predicate FirstScheduled(cs: seq<Condition>, i: int) {
    0 <= i < |cs| && cs[i].kind == "PodScheduled" && forall k :: 0 <= k < i ==> cs[k].kind != "PodScheduled"
  }

  lemma {:induction false} FirstIsScheduled(cs: seq<Condition>, i: nat)
    requires FirstScheduled(cs, i)
    ensures ScheduledCondition(cs) == Some(cs[i])
  {
    if i > 0 {
      assert cs[0].kind != "PodScheduled";
      forall k | 0 <= k < i - 1 ensures cs[1..][k].kind != "PodScheduled" { assert cs[k + 1].kind != "PodScheduled"; }
      FirstIsScheduled(cs[1..], i - 1);
    }
  }

  lemma {:induction false} NoneScheduled(cs: seq<Condition>)
    ensures ScheduledCondition(cs).None? <==> forall i :: 0 <= i < |cs| ==> cs[i].kind != "PodScheduled"
  {
    if cs != [] {
      NoneScheduled(cs[1..]);
      assert cs[0].kind != "PodScheduled" ==>
          ((forall i :: 0 <= i < |cs| ==> cs[i].kind != "PodScheduled") <==>
           forall i :: 0 <= i < |cs[1..]| ==> cs[1..][i].kind != "PodScheduled") by {
        forall i | 1 <= i < |cs| ensures cs[i] == cs[1..][i - 1] {}
      }
    }
  }

  /** The counted states of a pod, by its first PodScheduled condition. */
  lemma PodStates(p: Pod, i: nat, threshold: int, now: int)
    requires FirstScheduled(p.conditions, i)
    ensures Scheduled(p) <==> !p.deleting && p.conditions[i].status == True
    ensures Stuck(p, threshold, now) <==>
            && !p.deleting && p.conditions[i].status == False && p.conditions[i].reason == "Unschedulable"
            && p.conditions[i].since + threshold <= now
  {
    FirstIsScheduled(p.conditions, i);
  }

  lemma {:induction false} CountIsSize(pods: seq<Pod>, f: Pod -> bool)
    ensures Count(pods, f) == |set i | 0 <= i < |pods| && f(pods[i])|
  {
    if pods != [] {
      var n := |pods| - 1;
      CountIsSize(pods[..n], f);
      var before, all := set i | 0 <= i < n && f(pods[..n][i]), set i | 0 <= i < |pods| && f(pods[i]);
      forall i | 0 <= i < n ensures i in before <==> i in all { assert pods[..n][i] == pods[i]; }
      if f(pods[n]) {
        assert all == before + {n};
      } else {
        assert all == before;
      }
    }
  }

  predicate IsUnschedulable(c: Option<Condition>) {
    c.Some? && c.value.status == False && c.value.reason == Unschedulable()
  }

  method GetPodScheduledCondition(pod: Pod) returns (condition: Option<Condition>, isUnschedulable: bool)
    ensures condition == ScheduledCondition(pod.conditions) && isUnschedulable == IsUnschedulable(condition)
    ensures condition.None? <==> forall i :: 0 <= i < |pod.conditions| ==> pod.conditions[i].kind != "PodScheduled"
    ensures forall i :: FirstScheduled(pod.conditions, i) ==> condition == Some(pod.conditions[i])
    ensures isUnschedulable <==>
              condition.Some? && condition.value.status == False && condition.value.reason == "Unschedulable"
  {
    condition := None;
    var cs := pod.conditions;
    NoneScheduled(cs);
    forall i | FirstScheduled(cs, i) ensures ScheduledCondition(cs) == Some(cs[i]) { FirstIsScheduled(cs, i); }
    for i := 0 to |cs|
      invariant ScheduledCondition(cs) == ScheduledCondition(cs[i..])
      invariant condition == None
    {
      assert cs[i..][1..] == cs[i + 1..];
      if cs[i].kind == PodScheduled() {
        condition := Some(cs[i]);
        break;
      }
    }
    if condition == None || condition.value.status != False || condition.value.reason != Unschedulable() {
      return condition, false;
    }
    return condition, true;
  }

  // ---------- Counting ----------

  /** A live pod that is placed on a node. */
  predicate Scheduled(p: Pod) {
    var c := ScheduledCondition(p.conditions);
    !p.deleting && c.Some? && c.value.status == True
  }

  /** A live pod that waits for a node. */
  predicate Waiting(p: Pod) {
    !p.deleting && IsUnschedulable(ScheduledCondition(p.conditions))
  }

  /** The moment a waiting pod crosses the threshold. */
  function CrossesAt(p: Pod, threshold: int): int
    requires Waiting(p)
  {
    ScheduledCondition(p.conditions).value.since + threshold
  }

  predicate Stuck(p: Pod, threshold: int, now: int) {
    Waiting(p) && CrossesAt(p, threshold) <= now
  }

  function Count(pods: seq<Pod>, f: Pod -> bool): (n: nat)
    ensures n <= |pods|
  {
    if pods == [] then 0
    else (if f(pods[|pods| - 1]) then 1 else 0) + Count(pods[..|pods| - 1], f)
  }

  function StuckCount(pods: seq<Pod>, threshold: int, now: int): nat {
    Count(pods, p => Stuck(p, threshold, now))
  }

  /** `next` is the time until the first of the pods still below the threshold crosses it. */
  ghost predicate IsNextCrossing(pods: seq<Pod>, threshold: int, now: int, next: Option<int>) {
    match next
    case None => forall p :: p in pods && Waiting(p) ==> CrossesAt(p, threshold) <= now
    case Some(d) =>
      && d > 0
      && (exists p :: p in pods && Waiting(p) && CrossesAt(p, threshold) == now + d)
      && forall p :: p in pods && Waiting(p) && CrossesAt(p, threshold) > now ==> CrossesAt(p, threshold) >= now + d
  }

  lemma CountStep(pods: seq<Pod>, i: nat, f: Pod -> bool)
    requires i < |pods|
    ensures Count(pods[..i + 1], f) == (if f(pods[i]) then 1 else 0) + Count(pods[..i], f)
  {
    assert pods[..i + 1][..i] == pods[..i];
  }

  lemma CrossingStep(pods: seq<Pod>, i: nat, threshold: int, now: int, next: Option<int>)
    requires i < |pods| && IsNextCrossing(pods[..i], threshold, now, next)
    ensures var p := pods[i];
            IsNextCrossing(pods[..i + 1], threshold, now,
              if && Waiting(p) && CrossesAt(p, threshold) > now
                 && (next.None? || next.value > CrossesAt(p, threshold) - now)
              then Some(CrossesAt(p, threshold) - now) else next)
  {
    var p := pods[i];
    assert forall q :: q in pods[..i + 1] <==> q == p || q in pods[..i];
    assert Waiting(p) ==> CrossesAt(p, threshold) == now + (CrossesAt(p, threshold) - now);
  }

  method CountScheduledAndUnschedulable(pods: seq<Pod>, now: int, threshold: int)
    returns (scheduled: nat, unschedulable: nat, nextCrossIn: Option<int>)
    ensures scheduled == Count(pods, Scheduled)
    ensures unschedulable == StuckCount(pods, threshold, now)
    ensures IsNextCrossing(pods, threshold, now, nextCrossIn)
  {
    scheduled, unschedulable, nextCrossIn := 0, 0, None;
    for i := 0 to |pods|
      invariant scheduled == Count(pods[..i], Scheduled)
      invariant unschedulable == StuckCount(pods[..i], threshold, now)
      invariant IsNextCrossing(pods[..i], threshold, now, nextCrossIn)
    {
      var pod := pods[i];
      CountStep(pods, i, Scheduled);
      CountStep(pods, i, p => Stuck(p, threshold, now));
      CrossingStep(pods, i, threshold, now, nextCrossIn);
      if pod.deleting { continue; }
      var condition, isUnschedulable := GetPodScheduledCondition(pod);
      if !isUnschedulable {
        if condition.Some? && condition.value.status == True { scheduled := scheduled + 1; }
        continue;
      }
      var crossingIn := condition.value.since + threshold - now;
      if crossingIn <= 0 {
        unschedulable := unschedulable + 1;
      } else if nextCrossIn.None? || nextCrossIn.value > crossingIn {
        nextCrossIn := Some(crossingIn);
      }
    }
    assert pods[..|pods|] == pods;
  }

  lemma {:induction false} CountMonotone(pods: seq<Pod>, f: Pod -> bool, g: Pod -> bool)
    requires forall p :: p in pods && f(p) ==> g(p)
    ensures Count(pods, f) <= Count(pods, g)
    ensures (exists p :: p in pods && g(p) && !f(p)) ==> Count(pods, f) < Count(pods, g)
    ensures (forall p :: p in pods && g(p) ==> f(p)) ==> Count(pods, f) == Count(pods, g)
  {
    if pods != [] {
      var n := |pods| - 1;
      assert pods == pods[..n] + [pods[n]];
      assert pods[n] in pods;
      CountMonotone(pods[..n], f, g);
    }
  }

  /** With the pods unchanged, the counts read now are still right at any later moment before nextCrossIn has passed,
      and for ever when there is no next crossing; once it has passed the unschedulable count is higher. */
  lemma NextCrossingIsExact(pods: seq<Pod>, threshold: int, now: int, next: Option<int>, later: int)
    requires now <= later && IsNextCrossing(pods, threshold, now, next)
    ensures next.None? || later < now + next.value <==>
        StuckCount(pods, threshold, later) == StuckCount(pods, threshold, now)
    ensures next.Some? && later >= now + next.value ==>
        StuckCount(pods, threshold, later) > StuckCount(pods, threshold, now)
  {
    var f, g := p => Stuck(p, threshold, now), p => Stuck(p, threshold, later);
    CountMonotone(pods, f, g);
    if next.Some? && later >= now + next.value {
      var p :| p in pods && Waiting(p) && CrossesAt(p, threshold) == now + next.value;
      assert g(p) && !f(p);
    }
  }

  // ---------- estimateCapacity ----------

  /** What one cluster reports: its status replicas (when they can be read), the desired replicas (when they can be
      read), and its pods, or a failure to list them that may ask for a backoff. */
  datatype Pods = Listed(pods: seq<Pod>, at: int) | Unavailable(backoff: bool)
  datatype ClusterObject = ClusterObject(name: string, totalAndReady: Option<(int, int)>, desired: Option<int>,
      pods: Pods)

  /** Total and ready replicas agree: the pods are not looked at. */
  predicate Settled(o: ClusterObject) {
    o.totalAndReady.Some? && o.totalAndReady.value.0 == o.totalAndReady.value.1
  }

  /** The pods of the cluster are counted. */
  predicate Counted(o: ClusterObject) {
    !Settled(o) && o.desired.Some? && o.pods.Listed?
  }

  function StuckPods(o: ClusterObject, threshold: int): nat
    requires Counted(o)
  {
    StuckCount(o.pods.pods, threshold, o.pods.at)
  }

  /** The replicas the cluster can hold: pods that were not created yet count as schedulable. */
  function Capacity(o: ClusterObject, threshold: int): int
    requires Counted(o)
  {
    (if |o.pods.pods| >= o.desired.value then |o.pods.pods| else o.desired.value) - StuckPods(o, threshold)
  }

  /** The capacity is worth reporting. */
  predicate Short(o: ClusterObject, threshold: int) {
    Counted(o) && Capacity(o, threshold) < o.desired.value
  }

  /** No capacity is negative, so the clamp at zero never takes effect. */
  lemma CapacityIsNotNegative(o: ClusterObject, threshold: int)
    requires Counted(o)
    ensures Capacity(o, threshold) >= 0
  {
    assert StuckPods(o, threshold) <= |o.pods.pods|;
  }

  /** A capacity is reported exactly when pods are stuck and, of those that exist, fewer than desired can run. */
  lemma ShortIff(o: ClusterObject, threshold: int)
    requires Counted(o)
    ensures Short(o, threshold) <==>
            StuckPods(o, threshold) > 0 && |o.pods.pods| - StuckPods(o, threshold) < o.desired.value
  {}

  ghost predicate IsReplicas(o: ClusterObject, n: int) {
    (Settled(o) && n == o.totalAndReady.value.0) || (Counted(o) && n == Count(o.pods.pods, Scheduled))
  }

  /** `os[i]` is short, and no later object of its cluster is. */
  predicate LastShort(os: seq<ClusterObject>, threshold: int, i: nat) {
    && i < |os| && Short(os[i], threshold)
    && forall j :: i < j < |os| && os[j].name == os[i].name ==> !Short(os[j], threshold)
  }

  predicate Seen(o: ClusterObject) {
    Settled(o) || Counted(o)
  }

  predicate LastSeen(os: seq<ClusterObject>, i: nat) {
    i < |os| && Seen(os[i]) && forall j :: i < j < |os| && os[j].name == os[i].name ==> !Seen(os[j])
  }

  /** The capacities: an entry for exactly the clusters with a short object, the last such object deciding. */
  ghost predicate Capacities(os: seq<ClusterObject>, threshold: int, capacity: map<string, int>) {
    && (forall i: nat :: LastShort(os, threshold, i) ==>
          os[i].name in capacity && capacity[os[i].name] == Capacity(os[i], threshold))
    && (forall name :: name in capacity ==> exists i: nat :: LastShort(os, threshold, i) && os[i].name == name)
  }

  ghost predicate Replicas(os: seq<ClusterObject>, replicas: map<string, int>) {
    && (forall i: nat :: LastSeen(os, i) ==> os[i].name in replicas && IsReplicas(os[i], replicas[os[i].name]))
    && (forall name :: name in replicas ==> exists i: nat :: LastSeen(os, i) && os[i].name == name)
  }

  /** The next crossing in one cluster is `d` away from when its pods were counted. */
  ghost predicate CrossesIn(o: ClusterObject, threshold: int, d: int) {
    Counted(o) && IsNextCrossing(o.pods.pods, threshold, o.pods.at, Some(d))
  }

  /** `retry` is the smallest of the clusters' next crossings. */
  ghost predicate IsRetry(os: seq<ClusterObject>, threshold: int, retry: Option<int>) {
    match retry
    case None => forall o, d :: o in os ==> !CrossesIn(o, threshold, d)
    case Some(r) =>
      && (exists o :: o in os && CrossesIn(o, threshold, r))
      && forall o, d :: o in os && CrossesIn(o, threshold, d) ==> r <= d
  }

  predicate AsksBackoff(o: ClusterObject) {
    !Settled(o) && o.desired.Some? && o.pods.Unavailable? && o.pods.backoff
  }

  datatype Requeue = Requeue(after: Option<int>, backoff: bool)

  lemma NextCrossingUnique(pods: seq<Pod>, threshold: int, now: int, a: Option<int>, d: int)
    requires IsNextCrossing(pods, threshold, now, a) && IsNextCrossing(pods, threshold, now, Some(d))
    ensures a == Some(d)
  {
    var p :| p in pods && Waiting(p) && CrossesAt(p, threshold) == now + d;
    if a.Some? {
      var q :| q in pods && Waiting(q) && CrossesAt(q, threshold) == now + a.value;
    }
  }

  lemma RetrySnoc(os: seq<ClusterObject>, o: ClusterObject, threshold: int, retry: Option<int>, next: Option<int>)
    requires IsRetry(os, threshold, retry)
    requires Counted(o) ==> IsNextCrossing(o.pods.pods, threshold, o.pods.at, next)
    requires !Counted(o) ==> next.None?
    ensures IsRetry(os + [o], threshold, if next.Some? && (retry.None? || next.value < retry.value) then next
        else retry)
  {
    forall d | CrossesIn(o, threshold, d) ensures next == Some(d) {
      NextCrossingUnique(o.pods.pods, threshold, o.pods.at, next, d);
    }
    assert next.Some? ==> CrossesIn(o, threshold, next.value);
    assert forall x :: x in os + [o] <==> x in os || x == o;
  }

  /** The clamp and the skip, for one cluster whose pods were counted. */
  method ClusterCapacity(pods: nat, desired: int, unschedulable: nat) returns (reported: Option<int>)
    requires unschedulable <= pods
    ensures var capacity := (if pods >= desired then pods else desired) - unschedulable;
            reported == if capacity < desired then Some(capacity) else None
    ensures reported.Some? ==> 0 <= reported.value < desired
  {
    var capacity: int;
    if pods >= desired {
      capacity := pods - unschedulable;
    } else {
      capacity := desired - unschedulable;
    }
    if capacity >= desired {
      return None;
    } else if capacity < 0 {
      assert false;
      capacity := 0;
    }
    return Some(capacity);
  }

  /** Every reported capacity lies between zero and the desired count of its cluster's object. */
  lemma CapacitiesInRange(os: seq<ClusterObject>, threshold: int, capacity: map<string, int>, name: string)
    requires Capacities(os, threshold, capacity) && name in capacity
    ensures exists o :: o in os && o.name == name && Short(o, threshold) && 0 <= capacity[name] < o.desired.value
  {
    var i: nat :| LastShort(os, threshold, i) && os[i].name == name;
    CapacityIsNotNegative(os[i], threshold);
    assert os[i] in os;
  }

  /** The requeue time is exact across clusters: until it has passed no cluster's count of stuck pods changes, and then
      some cluster's has risen. */
  lemma RequeueIsExact(os: seq<ClusterObject>, threshold: int, retry: Option<int>, wait: nat)
    requires IsRetry(os, threshold, retry)
    ensures retry.None? || wait < retry.value <==>
            forall o :: o in os && Counted(o) ==>
                StuckCount(o.pods.pods, threshold, o.pods.at + wait) == StuckPods(o, threshold)
  {
    forall o | o in os && Counted(o) && (retry.None? || wait < retry.value)
      ensures StuckCount(o.pods.pods, threshold, o.pods.at + wait) == StuckPods(o, threshold)
    {
      var next := NextCrossing(o.pods.pods, threshold, o.pods.at);
      assert next.Some? ==> CrossesIn(o, threshold, next.value);
      NextCrossingIsExact(o.pods.pods, threshold, o.pods.at, next, o.pods.at + wait);
    }
    if retry.Some? && wait >= retry.value {
      var o :| o in os && CrossesIn(o, threshold, retry.value);
      NextCrossingIsExact(o.pods.pods, threshold, o.pods.at, retry, o.pods.at + wait);
    }
  }

  lemma {:induction false} NextCrossing(pods: seq<Pod>, threshold: int, now: int) returns (next: Option<int>)
    ensures IsNextCrossing(pods, threshold, now, next)
  {
    next := None;
    if pods != [] {
      var p := pods[0];
      next := NextCrossing(pods[1..], threshold, now);
      assert forall q :: q in pods <==> q == p || q in pods[1..];
      if Waiting(p) && CrossesAt(p, threshold) > now && (next.None? || CrossesAt(p, threshold) < now + next.value) {
        next := Some(CrossesAt(p, threshold) - now);
        assert CrossesAt(p, threshold) == now + next.value;
      }
    }
  }

  /** What the loop of estimateCapacity finds out about one cluster. */
  datatype Finding = Finding(replicas: Option<int>, capacity: Option<int>, next: Option<int>, backoff: bool)

  ghost predicate IsFinding(o: ClusterObject, threshold: int, f: Finding) {
    && (f.replicas.Some? <==> Settled(o) || Counted(o))
    && (f.replicas.Some? ==> IsReplicas(o, f.replicas.value))
    && (f.capacity.Some? <==> Short(o, threshold))
    && (f.capacity.Some? ==> f.capacity.value == Capacity(o, threshold))
    && (Counted(o) ==> IsNextCrossing(o.pods.pods, threshold, o.pods.at, f.next))
    && (!Counted(o) ==> f.next.None?)
    && (f.backoff <==> AsksBackoff(o))
  }

  method AnalyzeCluster(o: ClusterObject, threshold: int) returns (f: Finding)
    ensures IsFinding(o, threshold, f)
    ensures f.capacity.Some? ==> 0 <= f.capacity.value < o.desired.value
    ensures if o.totalAndReady.Some? && o.totalAndReady.value.0 == o.totalAndReady.value.1 then
              f == Finding(Some(o.totalAndReady.value.1), None, None, false)
            else if o.desired.None? then f == Finding(None, None, None, false)
            else if o.pods.Unavailable? then f == Finding(None, None, None, o.pods.backoff)
            else
              var pods, desired, stuck := |o.pods.pods|, o.desired.value, StuckCount(o.pods.pods, threshold, o.pods.at);
              && f.replicas == Some(Count(o.pods.pods, Scheduled)) && !f.backoff
              && (f.capacity.Some? <==> stuck > 0 && pods - stuck < desired)
              && (f.capacity.Some? ==> f.capacity.value + stuck == if pods < desired then desired else pods)
  {
    if o.totalAndReady.Some? && o.totalAndReady.value.0 == o.totalAndReady.value.1 {
      return Finding(Some(o.totalAndReady.value.0), None, None, false);
    }
    if o.desired.None? { return Finding(None, None, None, false); }
    if o.pods.Unavailable? { return Finding(None, None, None, o.pods.backoff); }
    var scheduled, unschedulable, nextCrossIn := CountScheduledAndUnschedulable(o.pods.pods, o.pods.at, threshold);
    var reported := ClusterCapacity(|o.pods.pods|, o.desired.value, unschedulable);
    return Finding(Some(scheduled), reported, nextCrossIn, false);
  }

  lemma LastShortSnoc(os: seq<ClusterObject>, o: ClusterObject, threshold: int, i: nat)
    ensures LastShort(os + [o], threshold, i) <==>
            if i == |os| then Short(o, threshold)
            else LastShort(os, threshold, i) && !(o.name == os[i].name && Short(o, threshold))
  {
    var all := os + [o];
    assert all[|os|] == o && forall j :: 0 <= j < |os| ==> all[j] == os[j];
  }

  lemma CapacitiesSnoc(os: seq<ClusterObject>, o: ClusterObject, threshold: int, f: Finding, capacity: map<string, int>)
    requires IsFinding(o, threshold, f) && Capacities(os, threshold, capacity)
    ensures Capacities(os + [o], threshold, if f.capacity.Some? then capacity[o.name := f.capacity.value] else capacity)
  {
    var all, more := os + [o], if f.capacity.Some? then capacity[o.name := f.capacity.value] else capacity;
    forall i: nat | LastShort(all, threshold, i)
      ensures all[i].name in more && more[all[i].name] == Capacity(all[i], threshold)
    {
      LastShortSnoc(os, o, threshold, i);
    }
    forall name | name in more ensures exists i: nat :: LastShort(all, threshold, i) && all[i].name == name {
      if name == o.name && f.capacity.Some? {
        LastShortSnoc(os, o, threshold, |os|);
        assert LastShort(all, threshold, |os|) && all[|os|].name == name;
      } else {
        var i: nat :| LastShort(os, threshold, i) && os[i].name == name;
        LastShortSnoc(os, o, threshold, i);
        assert LastShort(all, threshold, i) && all[i].name == name;
      }
    }
  }

  lemma LastSeenSnoc(os: seq<ClusterObject>, o: ClusterObject, i: nat)
    ensures LastSeen(os + [o], i) <==>
            if i == |os| then Seen(o) else LastSeen(os, i) && !(o.name == os[i].name && Seen(o))
  {
    var all := os + [o];
    assert all[|os|] == o && forall j :: 0 <= j < |os| ==> all[j] == os[j];
  }

  lemma ReplicasSnoc(os: seq<ClusterObject>, o: ClusterObject, threshold: int, f: Finding, replicas: map<string, int>)
    requires IsFinding(o, threshold, f) && Replicas(os, replicas)
    ensures Replicas(os + [o], if f.replicas.Some? then replicas[o.name := f.replicas.value] else replicas)
  {
    var all, more := os + [o], if f.replicas.Some? then replicas[o.name := f.replicas.value] else replicas;
    forall i: nat | LastSeen(all, i) ensures all[i].name in more && IsReplicas(all[i], more[all[i].name]) {
      LastSeenSnoc(os, o, i);
    }
    forall name | name in more ensures exists i: nat :: LastSeen(all, i) && all[i].name == name {
      if name == o.name && f.replicas.Some? {
        LastSeenSnoc(os, o, |os|);
        assert LastSeen(all, |os|) && all[|os|].name == name;
      } else {
        var i: nat :| LastSeen(os, i) && os[i].name == name;
        LastSeenSnoc(os, o, i);
        assert LastSeen(all, i) && all[i].name == name;
      }
    }
  }

  /** What the loop of estimateCapacity has gathered about the objects so far. */
  ghost predicate Summary(os: seq<ClusterObject>, threshold: int, capacity: map<string, int>,
                          replicas: map<string, int>, retry: Option<int>, backoff: bool)
  {
    && Capacities(os, threshold, capacity) && Replicas(os, replicas) && IsRetry(os, threshold, retry)
    && (backoff <==> exists o :: o in os && AsksBackoff(o))
  }

  lemma SummarySnoc(os: seq<ClusterObject>, o: ClusterObject, threshold: int, f: Finding, capacity: map<string, int>,
                    replicas: map<string, int>, retry: Option<int>, backoff: bool)
    requires Summary(os, threshold, capacity, replicas, retry, backoff) && IsFinding(o, threshold, f)
    ensures Summary(os + [o], threshold,
                    if f.capacity.Some? then capacity[o.name := f.capacity.value] else capacity,
                    if f.replicas.Some? then replicas[o.name := f.replicas.value] else replicas,
                    if f.next.Some? && (retry.None? || f.next.value < retry.value) then f.next else retry,
                    backoff || f.backoff)
  {
    ReplicasSnoc(os, o, threshold, f, replicas);
    CapacitiesSnoc(os, o, threshold, f, capacity);
    RetrySnoc(os, o, threshold, retry, f.next);
    BackoffSnoc(os, o);
  }

  lemma BackoffSnoc(os: seq<ClusterObject>, o: ClusterObject)
    ensures (exists x :: x in os + [o] && AsksBackoff(x)) <==>
            (exists x :: x in os && AsksBackoff(x)) || AsksBackoff(o)
  {
    assert forall x :: x in os + [o] <==> x in os || x == o;
  }

  method EstimateCapacity(os: seq<ClusterObject>, threshold: int)
    returns (capacity: map<string, int>, replicas: map<string, int>, result: Option<Requeue>)
    ensures Capacities(os, threshold, capacity)
    ensures Replicas(os, replicas)
    ensures result.None? ==> IsRetry(os, threshold, None) && forall o :: o in os ==> !AsksBackoff(o)
    ensures result.Some? ==> IsRetry(os, threshold, result.value.after)
    ensures result.Some? ==> result.value.after.Some? || result.value.backoff
    ensures result.Some? ==> (result.value.backoff <==> exists o :: o in os && AsksBackoff(o))
  {
    var needsBackoff, retryAfter: Option<int> := false, None;
    capacity, replicas := map[], map[];
    for i := 0 to |os|
      invariant Summary(os[..i], threshold, capacity, replicas, retryAfter, needsBackoff)
    {
      var o := os[i];
      var f := AnalyzeCluster(o, threshold);
      assert os[..i + 1] == os[..i] + [o];
      SummarySnoc(os[..i], o, threshold, f, capacity, replicas, retryAfter, needsBackoff);
      if f.replicas.Some? { replicas := replicas[o.name := f.replicas.value]; }
      if f.backoff { needsBackoff := true; }
      if f.next.Some? && (retryAfter.None? || f.next.value < retryAfter.value) { retryAfter := f.next; }
      if f.capacity.Some? { capacity := capacity[o.name := f.capacity.value]; }
    }
    assert os[..|os|] == os;
    result := None;
    if needsBackoff || retryAfter.Some? { result := Some(Requeue(retryAfter, needsBackoff)); }
  }
}
