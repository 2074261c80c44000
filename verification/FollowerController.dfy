/** The follower controller's reconcile loops, proved to take exactly the protocol's steps
    (`pkg/controllers/follower/controller.go`). */
module FollowerController {
  import opened Wrappers
  import BC = BidirectionalCache
  import opened FollowerProtocol

  datatype Status = AllOK | Conflict | Error

  /** getLeaderObj and GetPlacementUnion over the leaders, one by one. */
  method LeaderPlacementUnion(k: Kinds, view: map<Ref, FedObject>, leaders: set<Ref>, luck: Luck)
    returns (r: Result<set<string>>)
    ensures r == if LeadersReadable(k, leaders, luck) then Ok(PlacementOf(view, leaders)) else Err
    ensures r.Err? <==> exists l ::
              l in leaders && (l.gk !in LEADER_KINDS || l.gk !in k.known || !luck.leadersReadable)
    ensures r.Ok? ==> forall c :: c in r.value <==> PlacedBy(view, leaders, c)
  {
    var todo, clusters: set<string> := leaders, {};
    while todo != {}
      invariant todo <= leaders
      invariant leaders - todo != {} ==> luck.leadersReadable
      invariant forall l :: l in leaders - todo ==> l.gk in LEADER_KINDS && l.gk in k.known
      invariant clusters == PlacementOf(view, leaders - todo)
      decreases todo
    {
      var leader :| leader in todo;
      if leader.gk !in LEADER_KINDS || leader.gk !in k.known || !luck.leadersReadable {
        return Err;
      }
      ghost var done := leaders - todo;
      todo := todo - {leader};
      assert leaders - todo == done + {leader};
      ghost var was := clusters;
      if leader in view {
        clusters := PlacementUnion(view[leader]) + clusters;
      }
      forall c ensures c in clusters <==> c in PlacementOf(view, leaders - todo) {
        assert c in was <==> exists l :: l in done && l in view && c in PlacementUnion(view[l]);
        assert c in PlacementOf(view, leaders - todo) <==>
            exists l :: l in leaders - todo && l in view && c in PlacementUnion(view[l]);
      }
    }
    assert leaders - todo == leaders;
    forall c { PlacementOfMembers(view, leaders, c); }
    return Ok(clusters);
  }

  class Controller {
    const kinds: Kinds
    const fromLeaders: BC.Cache<Ref, Ref>
    const fromFollowers: BC.Cache<Ref, Ref>
    var api: map<Ref, FedObject>
    var view: map<Ref, FedObject>
    var queue: set<Ref>
    var revision: nat

    ghost predicate Valid()
      reads this, fromLeaders, fromFollowers
    {
      fromLeaders != fromFollowers && fromLeaders.Valid() && fromFollowers.Valid()
    }

    ghost function Abs(): State
      reads this, fromLeaders, fromFollowers
    {
      State(api, view, fromLeaders.cache, fromFollowers.cache, queue, revision)
    }

    constructor (kinds: Kinds, api: map<Ref, FedObject>, revision: nat)
      ensures Valid() && Abs() == Initial(api, revision) && this.kinds == kinds
      ensures fresh(fromLeaders) && fresh(fromFollowers)
    {
      this.kinds, this.api, this.revision := kinds, api, revision;
      view, queue := map[], {};
      fromLeaders := new BC.Cache();
      fromFollowers := new BC.Cache();
    }

    /** The informer catches up on one object and its handler, enqueueSupportedType, queues it if it can lead or
        follow. */
    method ObjectDelivered(r: Ref)
      requires Valid()
      modifies this`view, this`queue
      ensures Valid() && Abs() == Next(kinds, old(Abs()), Deliver(r))
      ensures r in view <==> r in api
      ensures r in view ==> view[r] == api[r]
      ensures r in queue <==>
              || r in old(queue) || r.gk in LEADER_KINDS || r.gk in SUPPORTED_FOLLOWER_KINDS
              || (r.gk in kinds.known && r.gk in kinds.hpa)
    {
      view := if r in api then view[r := api[r]] else view - {r};
      var isLeader := r.gk in LEADER_KINDS;
      var isHPA := r.gk in kinds.known && r.gk in kinds.hpa;
      var isFollower := r.gk in SUPPORTED_FOLLOWER_KINDS || isHPA;
      if isLeader || isFollower { queue := queue + {r}; }
    }

    method EnqueueFollowers(followers: set<Ref>)
      modifies this`queue
      ensures queue == old(queue) + set f | f in followers && f.gk in kinds.known
    {
      var todo := followers;
      while todo != {}
        invariant todo <= followers
        invariant queue == old(queue) + set f | f in followers - todo && f.gk in kinds.known
        decreases todo
      {
        var follower :| follower in todo;
        todo := todo - {follower};
        if follower.gk in kinds.known {
          queue := queue + {follower};
        }
      }
    }

    method ReconcileLeader(leader: Ref, luck: Luck) returns (status: Status)
      requires Valid() && leader in queue
      modifies this, fromLeaders
      ensures Valid() && Abs() == ProcessLeader(kinds, old(Abs()), leader, luck)
      ensures status == if luck.readable && (leader in view ==> InferFollowers(view[leader]).Ok?) then AllOK else Error
    {
      if !luck.readable { return Error; }
      var desired: set<Ref> := {};
      if leader in view {
        var inferred := InferFollowers(view[leader]);
        if inferred.Err? { return Error; }
        desired := inferred.value;
      }
      queue := queue - {leader};
      fromLeaders.Update(leader, desired);
      var current := fromFollowers.ReverseLookup(leader);
      assert current == FollowersOf(old(Abs()), leader);
      EnqueueFollowers(desired + current);
      return AllOK;
    }

    method UpdateFollower(follower: Ref, o: FedObject, leadersChanged: bool, leaders: set<Ref>, luck: Luck)
      returns (status: Status)
      requires Valid() && follower in queue && leadersChanged == (leaders != o.follows)
      modifies this
      ensures Valid()
      ensures var s, clusters := old(Abs()), PlacementOf(view, leaders);
              if !LeadersReadable(kinds, leaders, luck) then status == Error && Abs() == s
              else if leaders == o.follows && clusters == o.ownPlacement then status == AllOK && Abs() == s
              else if luck.writable && follower in s.api && s.api[follower].version == o.version then
                status == AllOK && Abs() == ApplyWrite(s, follower, o.(follows := leaders, ownPlacement := clusters))
              else status == (if luck.writable && follower in s.api then Conflict else Error) && Abs() == s
    {
      var updated := o;
      if leadersChanged { updated := updated.(follows := leaders); }
      var clusters := LeaderPlacementUnion(kinds, view, leaders, luck);
      if clusters.Err? { return Error; }
      var placementsChanged := updated.ownPlacement != clusters.value;
      if placementsChanged { updated := updated.(ownPlacement := clusters.value); }
      if leadersChanged || placementsChanged {
        if !luck.writable || follower !in api { return Error; }
        if api[follower].version != o.version { return Conflict; }
        api, revision := api[follower := updated.(version := revision + 1)], revision + 1;
      }
      return AllOK;
    }

    /** Any status but AllOK puts the key back; modelled by taking it from the queue only on AllOK. */
    method ReconcileFollower(follower: Ref, luck: Luck) returns (status: Status)
      requires Valid() && follower in queue
      modifies this, fromFollowers
      ensures Valid() && Abs() == ProcessFollower(kinds, old(Abs()), follower, luck)
      ensures status == AllOK <==> follower !in queue
    {
      if !luck.readable { return Error; }
      if follower !in view {
        fromFollowers.Update(follower, {});
        queue := queue - {follower};
        return AllOK;
      }
      var o := view[follower];
      fromFollowers.Update(follower, o.follows);
      var desired: set<Ref> := {};
      if !o.disableFollowing {
        desired := fromLeaders.ReverseLookup(follower);
      }
      assert desired == DesiredLeaders(old(Abs()), follower, o);
      status := UpdateFollower(follower, o, desired != o.follows, desired, luck);
      if status == AllOK {
        queue := queue - {follower};
      }
    }

    method Reconcile(key: Ref, luck: Luck) returns (status: Status)
      requires Valid() && key in queue
      modifies this, fromLeaders, fromFollowers
      ensures Valid() && Abs() == Next(kinds, old(Abs()), Process(key, luck))
      ensures status != AllOK ==> key in queue
    {
      if kinds.IsLeader(key) {
        status := ReconcileLeader(key, luck);
      } else if key.gk !in kinds.known {
        status := Error;
      } else if kinds.IsFollower(key) {
        status := ReconcileFollower(key, luck);
      } else {
        queue := queue - {key};
        status := AllOK;
      }
    }
  }
}
