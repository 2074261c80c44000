/** The leader/follower protocol (`pkg/controllers/follower/controller.go`) as a state machine: an API server, an
    informer view that lags behind it, the controller's two caches and its work queue. */
module FollowerProtocol {
  import opened Wrappers
  import opened BidirectionalCache

  datatype GroupKind = GroupKind(group: string, kind: string)

  /** A leader or follower reference, which is also the work-queue key. */
  datatype Ref = Ref(gk: GroupKind, namespace: string, name: string)

  const LEADER_KINDS: set<GroupKind> := {
    GroupKind("apps", "Deployment"), GroupKind("apps", "StatefulSet"), GroupKind("apps", "DaemonSet"),
    GroupKind("batch", "Job"), GroupKind("batch", "CronJob"), GroupKind("", "Pod")
  }

  const SUPPORTED_FOLLOWER_KINDS: set<GroupKind> := {
    GroupKind("", "ConfigMap"), GroupKind("", "Secret"), GroupKind("", "PersistentVolumeClaim"),
    GroupKind("", "ServiceAccount"), GroupKind("", "Service"), GroupKind("networking.k8s.io", "Ingress")
  }

  /** The part of a federated object this controller reads. `ownPlacement` is the placement under the follower
      controller's name, `otherPlacement` the union of those of the other controllers. */
  datatype FedObject = FedObject(
    version: nat,
    follows: set<Ref>,
    ownPlacement: set<string>,
    otherPlacement: set<string>,
    disableFollowing: bool,
    enableFollowerScheduling: bool,
    noScheduling: bool,
    dryRun: bool,
    propagated: bool,
    annotatedFollowers: Result<set<Ref>>,
    podSpecFollowers: Result<set<Ref>>)

  function PlacementUnion(o: FedObject): set<string> {
    o.ownPlacement + o.otherPlacement
  }

  function InferFollowers(o: FedObject): Result<set<Ref>> {
    if !o.enableFollowerScheduling || o.noScheduling || (o.dryRun && !o.propagated) then Ok({})
    else if o.annotatedFollowers.Err? then Err
    else if o.podSpecFollowers.Err? then Err
    else Ok(o.annotatedFollowers.value + o.podSpecFollowers.value)
  }

  /** The object asks for follower scheduling, and nothing keeps it from being scheduled: no annotation against it, and
      no dry run that has not been propagated. */
  predicate SchedulesFollowers(o: FedObject) {
    o.enableFollowerScheduling && !o.noScheduling && (o.dryRun ==> o.propagated)
  }

  /** What is inferred: of an object that schedules its followers, those of its annotation and those of its pod spec,
      and a failure if either cannot be read; of any other object nothing, whatever it holds. */
  lemma InferredFrom(o: FedObject, f: Ref)
    ensures InferFollowers(o).Err? <==>
            SchedulesFollowers(o) && (o.annotatedFollowers.Err? || o.podSpecFollowers.Err?)
    ensures InferFollowers(o).Ok? ==>
              (f in InferFollowers(o).value <==>
               SchedulesFollowers(o) && (f in o.annotatedFollowers.value || f in o.podSpecFollowers.value))
  {}

  /** The FederatedTypeConfigs, fixed during a run: which kinds have one, and which of those carry the
      HPA annotation. */
  datatype Kinds = Kinds(known: set<GroupKind>, hpa: set<GroupKind>) {
    predicate IsLeader(r: Ref) { r.gk in LEADER_KINDS }

    predicate IsHPA(r: Ref) { r.gk in known && r.gk in hpa }

    predicate IsFollower(r: Ref) { !IsLeader(r) && (r.gk in SUPPORTED_FOLLOWER_KINDS || IsHPA(r)) }
  }

  datatype State = State(
    api: map<Ref, FedObject>,
    view: map<Ref, FedObject>,
    fromLeaders: map<Ref, set<Ref>>,
    fromFollowers: map<Ref, set<Ref>>,
    queue: set<Ref>,
    revision: nat)

  // ---------- Steps ----------

  /** What can go wrong in one pass: reading the object, reading the leaders, writing the follower. */
  datatype Luck = Luck(readable: bool, leadersReadable: bool, writable: bool)

  datatype Event =
    | Write(r: Ref, content: FedObject)   // somebody else creates or changes an object
    | Delete(r: Ref)                      // somebody else deletes an object
    | Deliver(r: Ref)                     // the informer catches up on one object
    | Process(r: Ref, luck: Luck)         // a worker takes one key from the queue

  function ApplyWrite(s: State, r: Ref, content: FedObject): State {
    s.(api := s.api[r := content.(version := s.revision + 1)], revision := s.revision + 1)
  }

  function ApplyDeliver(k: Kinds, s: State, r: Ref): State {
    var view := if r in s.api then s.view[r := s.api[r]] else s.view - {r};
    s.(view := view, queue := if k.IsLeader(r) || k.IsFollower(r) then s.queue + {r} else s.queue)
  }

  function FollowersOf(s: State, leader: Ref): set<Ref> {
    set f | f in s.fromFollowers && leader in s.fromFollowers[f]
  }

  function LeadersOf(s: State, follower: Ref): set<Ref> {
    set l | l in s.fromLeaders && follower in s.fromLeaders[l]
  }

  function ProcessLeader(k: Kinds, s: State, leader: Ref, luck: Luck): State {
    if !luck.readable then s
    else
      var desired := if leader in s.view then InferFollowers(s.view[leader]) else Ok({});
      if desired.Err? then s
      else
        s.(fromLeaders := Put(s.fromLeaders, leader, desired.value),
           queue := s.queue - {leader} + set f | f in desired.value + FollowersOf(s, leader) && f.gk in k.known)
  }

  function PlacementOf(view: map<Ref, FedObject>, leaders: set<Ref>): set<string> {
    set l, c | l in leaders && l in view && c in PlacementUnion(view[l]) :: c
  }

  function DesiredLeaders(s: State, follower: Ref, o: FedObject): set<Ref> {
    if o.disableFollowing then {} else LeadersOf(s, follower)
  }

  /** getLeaderObj fails for a kind that is no leader kind or has no FederatedTypeConfig. */
  predicate LeadersReadable(k: Kinds, leaders: set<Ref>, luck: Luck) {
    leaders == {} || (luck.leadersReadable && forall l :: l in leaders ==> l.gk in LEADER_KINDS && l.gk in k.known)
  }

  function ProcessFollower(k: Kinds, s: State, follower: Ref, luck: Luck): State {
    if !luck.readable then s
    else if follower !in s.view then
      s.(fromFollowers := Put(s.fromFollowers, follower, {}), queue := s.queue - {follower})
    else
      var o := s.view[follower];
      var s' := s.(fromFollowers := Put(s.fromFollowers, follower, o.follows));
      var desired := DesiredLeaders(s, follower, o);
      var clusters := PlacementOf(s.view, desired);
      if !LeadersReadable(k, desired, luck) then s'
      else if desired == o.follows && clusters == o.ownPlacement then s'.(queue := s.queue - {follower})
      else if luck.writable && follower in s.api && s.api[follower].version == o.version then
        ApplyWrite(s', follower, o.(follows := desired, ownPlacement := clusters)).(queue := s.queue - {follower})
      else s'
  }

  function ApplyProcess(k: Kinds, s: State, r: Ref, luck: Luck): State {
    if r !in s.queue then s
    else if k.IsLeader(r) then ProcessLeader(k, s, r, luck)
    else if r.gk !in k.known then s                        // isHPAType fails: retried
    else if k.IsFollower(r) then ProcessFollower(k, s, r, luck)
    else s.(queue := s.queue - {r})
  }

  function Next(k: Kinds, s: State, e: Event): State {
    match e
    case Write(r, content) => ApplyWrite(s, r, content)
    case Delete(r) => s.(api := s.api - {r}, revision := s.revision + 1)
    case Deliver(r) => ApplyDeliver(k, s, r)
    case Process(r, luck) => ApplyProcess(k, s, r, luck)
  }

  function Run(k: Kinds, s: State, es: seq<Event>): State
    decreases |es|
  {
    if es == [] then s else Run(k, Next(k, s, es[0]), es[1..])
  }

  function Initial(api: map<Ref, FedObject>, revision: nat): State {
    State(api, map[], map[], map[], {}, revision)
  }

  // ---------- The invariant ----------

  /** A version names one object state, and versions are handed out in increasing order. */
  ghost predicate Versions(s: State) {
    && (forall r :: r in s.api ==> s.api[r].version <= s.revision)
    && (forall r :: r in s.view ==> s.view[r].version <= s.revision)
    && (forall r :: r in s.api && r in s.view && s.api[r].version == s.view[r].version ==> s.api[r] == s.view[r])
  }

  /** A leader that is not queued has its followers cached as its object (or its absence) says. */
  ghost predicate LeaderCached(k: Kinds, s: State, l: Ref) {
    if !k.IsLeader(l) then At(s.fromLeaders, l) == {}
    else l !in s.queue ==>
           if l in s.view then InferFollowers(s.view[l]) == Ok(At(s.fromLeaders, l)) else At(s.fromLeaders, l) == {}
  }

  /** A follower that is not queued has its leaders cached as its object (or its absence) says. */
  ghost predicate FollowerCached(k: Kinds, s: State, f: Ref) {
    if !k.IsFollower(f) then At(s.fromFollowers, f) == {}
    else f !in s.queue ==> At(s.fromFollowers, f) == if f in s.view then s.view[f].follows else {}
  }

  /** The informer has nothing left to deliver for this object. */
  predicate Delivered(s: State, r: Ref) {
    if r in s.api then r in s.view && s.view[r] == s.api[r] else r !in s.view
  }

  /** A settled follower: not queued, present, and seen in its latest version. */
  predicate Settled(k: Kinds, s: State, f: Ref) {
    k.IsFollower(f) && f !in s.queue && f in s.api && Delivered(s, f)
  }

  ghost predicate FollowsRight(k: Kinds, s: State, f: Ref) {
    Settled(k, s, f) ==> s.api[f].follows == DesiredLeaders(s, f, s.api[f])
  }

  ghost predicate PlacedRight(k: Kinds, s: State, f: Ref) {
    Settled(k, s, f) && s.api[f].follows !! s.queue ==>
      s.api[f].ownPlacement == PlacementOf(s.view, s.api[f].follows)
  }

  /** enqueueFollowers skips kinds without a FederatedTypeConfig; their objects are still being retried. */
  ghost predicate UnknownRetried(k: Kinds, s: State, f: Ref) {
    k.IsFollower(f) && f.gk !in k.known && f in s.view ==> f in s.queue
  }

  ghost predicate Right(k: Kinds, s: State, r: Ref) {
    && LeaderCached(k, s, r) && FollowerCached(k, s, r) && FollowsRight(k, s, r) && PlacedRight(k, s, r)
    && UnknownRetried(k, s, r)
  }

  ghost predicate Inv(k: Kinds, s: State) {
    && Versions(s)
    && forall r :: Right(k, s, r)
  }

  lemma InitialInv(k: Kinds, api: map<Ref, FedObject>, revision: nat)
    requires forall r :: r in api ==> api[r].version <= revision
    ensures Inv(k, Initial(api, revision))
  {}

  lemma FollowsAreLeaders(k: Kinds, s: State, f: Ref, l: Ref)
    requires Inv(k, s) && l in LeadersOf(s, f)
    ensures k.IsLeader(l)
  {
    assert Right(k, s, l);
  }

  /** One of the leaders is placed in `c`, by this controller or by another. */
  ghost predicate PlacedBy(view: map<Ref, FedObject>, leaders: set<Ref>, c: string) {
    exists l :: l in leaders && l in view && (c in view[l].ownPlacement || c in view[l].otherPlacement)
  }

  lemma PlacementOfMembers(view: map<Ref, FedObject>, leaders: set<Ref>, c: string)
    ensures c in PlacementOf(view, leaders) <==> PlacedBy(view, leaders, c)
  {
    assert c in PlacementOf(view, leaders) <==> exists l :: l in leaders && l in view && c in PlacementUnion(view[l]);
    if PlacedBy(view, leaders, c) {
      var l :| l in leaders && l in view && (c in view[l].ownPlacement || c in view[l].otherPlacement);
      assert c in PlacementUnion(view[l]);
    }
  }

  lemma PlacementOfFrame(view: map<Ref, FedObject>, view': map<Ref, FedObject>, leaders: set<Ref>)
    requires forall l :: l in leaders ==> (l in view <==> l in view') && (l in view ==> view[l] == view'[l])
    ensures PlacementOf(view, leaders) == PlacementOf(view', leaders)
  {
    forall c ensures c in PlacementOf(view, leaders) <==> c in PlacementOf(view', leaders) {
      assert c in PlacementOf(view, leaders) <==> exists l :: l in leaders && l in view && c in PlacementUnion(view[l]);
      assert c in PlacementOf(view', leaders) <==>
          exists l :: l in leaders && l in view' && c in PlacementUnion(view'[l]);
    }
  }

  lemma WriteInv(k: Kinds, s: State, r: Ref, content: FedObject)
    requires Inv(k, s)
    ensures Inv(k, ApplyWrite(s, r, content))
  {
    var s' := ApplyWrite(s, r, content);
    forall x ensures Right(k, s', x) {
      assert Right(k, s, x);
    }
  }

  lemma DeleteInv(k: Kinds, s: State, r: Ref)
    requires Inv(k, s)
    ensures Inv(k, s.(api := s.api - {r}, revision := s.revision + 1))
  {
    var s' := s.(api := s.api - {r}, revision := s.revision + 1);
    forall x ensures Right(k, s', x) {
      assert Right(k, s, x);
    }
  }

  lemma DeliverInv(k: Kinds, s: State, r: Ref)
    requires Inv(k, s)
    ensures Inv(k, ApplyDeliver(k, s, r))
  {
    var s' := ApplyDeliver(k, s, r);
    forall x ensures Right(k, s', x) {
      assert Right(k, s, x);
      if Settled(k, s', x) {
        assert x != r && Settled(k, s, x);
        assert LeadersOf(s', x) == LeadersOf(s, x);
        if s'.api[x].follows !! s'.queue {
          if r in s.api[x].follows { FollowsAreLeaders(k, s, x, r); }
          assert r !in s.api[x].follows;
          PlacementOfFrame(s.view, s'.view, s.api[x].follows);
        }
      }
    }
  }

  /** Dequeuing a leader is safe: every settled follower it affects is queued in the same step. */
  lemma ProcessLeaderInv(k: Kinds, s: State, leader: Ref, luck: Luck)
    requires Inv(k, s) && k.IsLeader(leader)
    ensures Inv(k, ProcessLeader(k, s, leader, luck))
  {
    var s' := ProcessLeader(k, s, leader, luck);
    if s' != s {
      var desired := if leader in s.view then InferFollowers(s.view[leader]) else Ok({});
      forall x ensures Right(k, s', x) {
        assert Right(k, s, x);
        if Settled(k, s', x) {
          assert x.gk in k.known && Settled(k, s, x);
          assert x !in desired.value && x !in FollowersOf(s, leader);
          assert leader !in s.view[x].follows;
          assert LeadersOf(s', x) == LeadersOf(s, x) - {leader};
        }
      }
    }
  }

  lemma ProcessFollowerVersions(k: Kinds, s: State, follower: Ref, luck: Luck)
    requires Inv(k, s)
    ensures Versions(ProcessFollower(k, s, follower, luck))
  {}

  /** The step touches only the follower: its stored object, its cached leaders and its place in the queue. */
  ghost predicate OnlyTouches(s: State, s': State, r: Ref) {
    && s'.view == s.view && s'.fromLeaders == s.fromLeaders
    && s.queue - {r} <= s'.queue <= s.queue
    && forall x :: x != r ==>
         && (x in s'.api <==> x in s.api) && (x in s.api ==> s'.api[x] == s.api[x])
         && At(s'.fromFollowers, x) == At(s.fromFollowers, x)
  }

  lemma ProcessFollowerTouches(k: Kinds, s: State, follower: Ref, luck: Luck)
    ensures OnlyTouches(s, ProcessFollower(k, s, follower, luck), follower)
  {
    if follower !in s.view {
      CacheTouches(s, follower, {}, s.queue - {follower});
    } else {
      var o := s.view[follower];
      CacheTouches(s, follower, o.follows, s.queue);
      CacheTouches(s, follower, o.follows, s.queue - {follower});
      var desired := DesiredLeaders(s, follower, o);
      WriteTouches(s, s.(fromFollowers := Put(s.fromFollowers, follower, o.follows)), follower,
                   o.(follows := desired, ownPlacement := PlacementOf(s.view, desired)), s.queue - {follower});
    }
  }

  lemma CacheTouches(s: State, r: Ref, values: set<Ref>, queue: set<Ref>)
    requires s.queue - {r} <= queue <= s.queue
    ensures OnlyTouches(s, s.(fromFollowers := Put(s.fromFollowers, r, values), queue := queue), r)
  {}

  lemma WriteTouches(s: State, s0: State, r: Ref, content: FedObject, queue: set<Ref>)
    requires OnlyTouches(s, s0, r) && s.queue - {r} <= queue <= s.queue
    ensures OnlyTouches(s, ApplyWrite(s0, r, content).(queue := queue), r)
  {}

  lemma UntouchedStaysRight(k: Kinds, s: State, s': State, r: Ref, x: Ref)
    requires Inv(k, s) && k.IsFollower(r) && OnlyTouches(s, s', r) && x != r
    ensures Right(k, s', x)
  {
    assert Right(k, s, x);
    assert x in s'.queue <==> x in s.queue;
    assert LeadersOf(s', x) == LeadersOf(s, x);
    if Settled(k, s', x) {
      assert Settled(k, s, x);
      if r in s.api[x].follows { FollowsAreLeaders(k, s, x, r); }
      assert s.api[x].follows !! s'.queue ==> s.api[x].follows !! s.queue;
    }
  }

  lemma ProcessFollowerSelf(k: Kinds, s: State, follower: Ref, luck: Luck)
    requires Inv(k, s) && k.IsFollower(follower) && follower.gk in k.known && follower in s.queue
    ensures Right(k, ProcessFollower(k, s, follower, luck), follower)
  {
    var s' := ProcessFollower(k, s, follower, luck);
    ProcessFollowerTouches(k, s, follower, luck);
    assert Right(k, s, follower);
    assert LeadersOf(s', follower) == LeadersOf(s, follower);
    if luck.readable {
      PutAt(s.fromFollowers, follower, if follower in s.view then s.view[follower].follows else {});
    }
  }

  lemma PutAt(m: map<Ref, set<Ref>>, r: Ref, values: set<Ref>)
    ensures At(Put(m, r, values), r) == values
  {}

  lemma ProcessFollowerInv(k: Kinds, s: State, follower: Ref, luck: Luck)
    requires Inv(k, s) && k.IsFollower(follower) && follower.gk in k.known && follower in s.queue
    ensures Inv(k, ProcessFollower(k, s, follower, luck))
  {
    ProcessFollowerVersions(k, s, follower, luck);
    forall x ensures Right(k, ProcessFollower(k, s, follower, luck), x) {
      if x == follower {
        ProcessFollowerSelf(k, s, follower, luck);
      } else {
        ProcessFollowerTouches(k, s, follower, luck);
        UntouchedStaysRight(k, s, ProcessFollower(k, s, follower, luck), follower, x);
      }
    }
  }

  lemma NextInv(k: Kinds, s: State, e: Event)
    requires Inv(k, s)
    ensures Inv(k, Next(k, s, e))
  {
    match e
    case Write(r, content) => WriteInv(k, s, r, content);
    case Delete(r) => DeleteInv(k, s, r);
    case Deliver(r) => DeliverInv(k, s, r);
    case Process(r, luck) =>
      if r in s.queue {
        if k.IsLeader(r) {
          ProcessLeaderInv(k, s, r, luck);
        } else if r.gk in k.known {
          if k.IsFollower(r) {
            ProcessFollowerInv(k, s, r, luck);
          } else {
            DropInv(k, s, r);
          }
        }
      }
  }

  lemma DropInv(k: Kinds, s: State, r: Ref)
    requires Inv(k, s) && !k.IsLeader(r) && !k.IsFollower(r)
    ensures Inv(k, s.(queue := s.queue - {r}))
  {
    var s' := s.(queue := s.queue - {r});
    forall x ensures Right(k, s', x) {
      assert Right(k, s, x);
      assert LeadersOf(s', x) == LeadersOf(s, x);
      if Settled(k, s', x) && s.api[x].follows !! s'.queue && r in s.api[x].follows {
        FollowsAreLeaders(k, s, x, r);
      }
    }
  }

  /** The invariant holds in every state of every run. */
  lemma {:induction false} ReachableInv(k: Kinds, s: State, es: seq<Event>)
    requires Inv(k, s)
    ensures Inv(k, Run(k, s, es))
    decreases |es|
  {
    if es != [] {
      NextInv(k, s, es[0]);
      ReachableInv(k, Next(k, s, es[0]), es[1..]);
    }
  }

  // ---------- What quiescence means ----------

  /** The leaders that want `f`, read off the stored objects alone: those that schedule their
      followers and name `f` in their annotation or mention it in their pod spec. */
  ghost predicate Wants(k: Kinds, s: State, l: Ref, f: Ref) {
    && l.gk in LEADER_KINDS && l in s.api && SchedulesFollowers(s.api[l])
    && s.api[l].annotatedFollowers.Ok? && s.api[l].podSpecFollowers.Ok?
    && (f in s.api[l].annotatedFollowers.value || f in s.api[l].podSpecFollowers.value)
  }

  /** The stored follower agrees with the stored leaders: it follows exactly those that want it (none if it has opted
      out), and is placed exactly where they are. */
  ghost predicate Agrees(k: Kinds, s: State, f: Ref) {
    f in s.api ==>
      && (forall l :: l in s.api[f].follows <==> !s.api[f].disableFollowing && Wants(k, s, l, f))
      && (forall c :: c in s.api[f].ownPlacement <==> PlacedBy(s.api, s.api[f].follows, c))
  }

  ghost predicate Quiescent(s: State) {
    s.queue == {} && forall r :: Delivered(s, r)
  }

  lemma QuiescentAgrees(k: Kinds, s: State, f: Ref)
    requires Inv(k, s) && Quiescent(s) && k.IsFollower(f)
    ensures Agrees(k, s, f)
  {
    if f in s.api {
      assert Delivered(s, f) && Right(k, s, f);
      forall l ensures l in LeadersOf(s, f) <==> Wants(k, s, l, f) {
        assert Right(k, s, l) && Delivered(s, l);
        if l in s.api { InferredFrom(s.api[l], f); }
      }
      var o := s.api[f];
      forall l | l in o.follows ensures (l in s.view <==> l in s.api) && (l in s.view ==> s.view[l] == s.api[l]) {
        assert Delivered(s, l);
      }
      PlacementOfFrame(s.view, s.api, o.follows);
      assert o.ownPlacement == PlacementOf(s.api, o.follows);
      forall c ensures c in o.ownPlacement <==> PlacedBy(s.api, o.follows, c) {
        PlacementOfMembers(s.api, o.follows, c);
      }
    }
  }

  /** Convergence: whenever a run has nothing left to deliver or to process, every follower agrees with all leaders. */
  lemma QuiescentRunAgrees(k: Kinds, api: map<Ref, FedObject>, revision: nat, es: seq<Event>, f: Ref)
    requires forall r :: r in api ==> api[r].version <= revision
    requires Quiescent(Run(k, Initial(api, revision), es)) && k.IsFollower(f)
    ensures Agrees(k, Run(k, Initial(api, revision), es), f)
  {
    InitialInv(k, api, revision);
    ReachableInv(k, Initial(api, revision), es);
    QuiescentAgrees(k, Run(k, Initial(api, revision), es), f);
  }
}
