/** Once nobody else writes, the follower controller can come to rest exactly when no leaders name each other in a
    circle and nothing is there that it would retry for ever; at rest followers agree with their leaders. */
module FollowerConvergence {
  import opened Wrappers
  import opened BidirectionalCache
  import opened FollowerProtocol
  import opened LeaderNaming

  const FORTUNE := Luck(true, true, true)

  /** The informer has something to deliver, or a worker finishes a key without putting it back. */
  predicate Effective(k: Kinds, s: State, e: Event) {
    match e
    case Write(_, _) => false
    case Delete(_) => false
    case Deliver(r) => !Delivered(s, r)
    case Process(r, luck) => r in s.queue && r !in Next(k, s, e).queue
  }

  // ---------- The measure ----------

  function UndeliveredLeaders(k: Kinds, s: State): set<Ref> {
    set r | r in s.api.Keys + s.view.Keys && k.IsLeader(r) && !Delivered(s, r)
  }

  function UndeliveredOthers(k: Kinds, s: State): set<Ref> {
    set r | r in s.api.Keys + s.view.Keys && !k.IsLeader(r) && !Delivered(s, r)
  }

  function QueuedLeaders(k: Kinds, s: State): set<Ref> {
    set r | r in s.queue && k.IsLeader(r)
  }

  function QueuedOthers(k: Kinds, s: State): set<Ref> {
    set r | r in s.queue && !k.IsLeader(r)
  }

  predicate ContentRight(s: State, f: Ref)
    requires f in s.api
  {
    var desired := DesiredLeaders(s, f, s.api[f]);
    s.api[f].follows == desired && s.api[f].ownPlacement == PlacementOf(s.view, desired)
  }

  function Wrong(k: Kinds, s: State): set<Ref> {
    set f | f in s.api && k.IsFollower(f) && !ContentRight(s, f)
  }

  function OthersCost(k: Kinds, s: State): nat {
    4 * |Wrong(k, s)| + 2 * |UndeliveredOthers(k, s)| + |QueuedOthers(k, s)|
  }

  /** Leaders still to deliver, then the weight of the leaders still queued, then the work left on followers. */
  ghost predicate Smaller(k: Kinds, rank: Rank, base: nat, s': State, s: State) {
    var ul, ul' := |UndeliveredLeaders(k, s)|, |UndeliveredLeaders(k, s')|;
    var ql, ql' := Weight(QueuedLeaders(k, s), rank, base), Weight(QueuedLeaders(k, s'), rank, base);
    ul' < ul || (ul' == ul && (ql' < ql || (ql' == ql && OthersCost(k, s') < OthersCost(k, s))))
  }

  lemma DeliverShrinks(k: Kinds, s: State, r: Ref, rank: Rank, base: nat)
    requires Inv(k, s) && !Delivered(s, r)
    ensures Smaller(k, rank, base, ApplyDeliver(k, s, r), s)
  {
    var s' := ApplyDeliver(k, s, r);
    DeliverDelivers(k, s, r);
    if k.IsLeader(r) {
      assert r in UndeliveredLeaders(k, s) && r !in UndeliveredLeaders(k, s');
      SubsetSize(UndeliveredLeaders(k, s'), UndeliveredLeaders(k, s));
    } else {
      DeliverOther(k, s, r);
      WrongUnchanged(k, s, s', r);
    }
  }

  lemma DeliverDelivers(k: Kinds, s: State, r: Ref)
    requires Inv(k, s)
    ensures var s' := ApplyDeliver(k, s, r);
            Delivered(s', r) && forall x :: x != r ==> (Delivered(s', x) <==> Delivered(s, x))
  {}

  lemma DeliverOther(k: Kinds, s: State, r: Ref)
    requires Inv(k, s) && !Delivered(s, r) && !k.IsLeader(r)
    ensures var s' := ApplyDeliver(k, s, r);
            && UndeliveredLeaders(k, s') == UndeliveredLeaders(k, s) && QueuedLeaders(k, s') == QueuedLeaders(k, s)
            && |UndeliveredOthers(k, s')| == |UndeliveredOthers(k, s)| - 1
            && |QueuedOthers(k, s')| <= |QueuedOthers(k, s)| + 1
  {
    var s' := ApplyDeliver(k, s, r);
    DeliverDelivers(k, s, r);
    assert UndeliveredLeaders(k, s') == UndeliveredLeaders(k, s);
    assert QueuedLeaders(k, s') == QueuedLeaders(k, s);
    assert r in UndeliveredOthers(k, s);
    assert UndeliveredOthers(k, s') == UndeliveredOthers(k, s) - {r};
    SubsetSize(QueuedOthers(k, s'), QueuedOthers(k, s) + {r});
  }

  /** What is wrong about followers depends on the objects, on the leaders' cached followers and on the view of
      leaders. */
  lemma WrongUnchanged(k: Kinds, s: State, s': State, r: Ref)
    requires Inv(k, s) && s'.api == s.api && s'.fromLeaders == s.fromLeaders && !k.IsLeader(r)
    requires forall x :: x != r ==> (x in s.view <==> x in s'.view) && (x in s.view ==> s.view[x] == s'.view[x])
    ensures Wrong(k, s') == Wrong(k, s)
  {
    forall f | f in s.api ensures ContentRight(s', f) <==> ContentRight(s, f) {
      assert LeadersOf(s', f) == LeadersOf(s, f);
      if r in LeadersOf(s, f) { FollowsAreLeaders(k, s, f, r); }
      PlacementOfFrame(s.view, s'.view, DesiredLeaders(s, f, s.api[f]));
    }
  }

  /** A leader's pass puts back, of all leaders, only those the leader names. */
  lemma LeadersQueuedBy(k: Kinds, s: State, l: Ref, luck: Luck)
    requires Inv(k, s) && k.IsLeader(l) && ProcessLeader(k, s, l, luck) != s
    ensures QueuedLeaders(k, ProcessLeader(k, s, l, luck)) ==
            QueuedLeaders(k, s) - {l} + if l in s.view then Named(k, s.view[l]) else {}
  {
    forall f | f in FollowersOf(s, l) ensures !k.IsLeader(f) {
      assert Right(k, s, f);
    }
  }

  lemma ProcessLeaderShrinks(k: Kinds, s: State, l: Ref, luck: Luck, rank: Rank, base: nat)
    requires Inv(k, s) && Ranked(k, s.view, rank, base) && k.IsLeader(l) && l in s.queue
    requires l !in ProcessLeader(k, s, l, luck).queue
    ensures Smaller(k, rank, base, ProcessLeader(k, s, l, luck), s)
  {
    var s' := ProcessLeader(k, s, l, luck);
    assert forall x :: Delivered(s', x) <==> Delivered(s, x);
    assert UndeliveredLeaders(k, s') == UndeliveredLeaders(k, s);
    LeadersQueuedBy(k, s, l, luck);
    var named := if l in s.view then Named(k, s.view[l]) else {};
    forall m | m in named ensures rank(m) < rank(l) { assert Names(k, s.view, l, m); }
    WeightDrops(QueuedLeaders(k, s), l, named, rank, base);
  }

  /** What processing a key of a non-leader kind changes in the measure's sets when the key is not put back. */
  lemma OtherDequeued(k: Kinds, s: State, s': State, f: Ref)
    requires !k.IsLeader(f) && OnlyTouches(s, s', f) && f in s.queue && f !in s'.queue
    ensures UndeliveredLeaders(k, s') == UndeliveredLeaders(k, s)
    ensures QueuedLeaders(k, s') == QueuedLeaders(k, s)
    ensures QueuedOthers(k, s') == QueuedOthers(k, s) - {f} && |QueuedOthers(k, s')| == |QueuedOthers(k, s)| - 1
    ensures UndeliveredOthers(k, s') <= UndeliveredOthers(k, s) + {f}
    ensures s'.api == s.api ==> UndeliveredOthers(k, s') == UndeliveredOthers(k, s)
  {
    assert forall x :: x != f ==> (Delivered(s', x) <==> Delivered(s, x));
    assert f in QueuedOthers(k, s);
  }

  lemma WrittenIsRight(k: Kinds, s: State, f: Ref, luck: Luck)
    requires Inv(k, s) && k.IsFollower(f) && ProcessFollower(k, s, f, luck).api != s.api
    ensures var s' := ProcessFollower(k, s, f, luck);
            f in Wrong(k, s) && Wrong(k, s') == Wrong(k, s) - {f}
  {
    var s' := ProcessFollower(k, s, f, luck);
    assert s.api[f] == s.view[f];
    forall x | x in s.api ensures LeadersOf(s', x) == LeadersOf(s, x) {}
    assert ContentRight(s', f);
    forall x | x != f && x in s.api ensures ContentRight(s', x) <==> ContentRight(s, x) {}
  }

  lemma ProcessFollowerShrinks(k: Kinds, s: State, f: Ref, luck: Luck, rank: Rank, base: nat)
    requires Inv(k, s) && k.IsFollower(f) && f in s.queue
    requires f !in ProcessFollower(k, s, f, luck).queue
    ensures Smaller(k, rank, base, ProcessFollower(k, s, f, luck), s)
  {
    var s' := ProcessFollower(k, s, f, luck);
    ProcessFollowerTouches(k, s, f, luck);
    OtherDequeued(k, s, s', f);
    if s'.api == s.api {
      WrongUnchanged(k, s, s', f);
    } else {
      WrittenIsRight(k, s, f, luck);
      SubsetSize(UndeliveredOthers(k, s'), UndeliveredOthers(k, s) + {f});
    }
  }

  lemma DropShrinks(k: Kinds, s: State, r: Ref, rank: Rank, base: nat)
    requires Inv(k, s) && !k.IsLeader(r) && r in s.queue
    ensures Smaller(k, rank, base, s.(queue := s.queue - {r}), s)
  {
    var s' := s.(queue := s.queue - {r});
    OtherDequeued(k, s, s', r);
    WrongUnchanged(k, s, s', r);
  }

  /** Every effective step makes progress, whatever is delivered and processed in whatever order, as long as the leaders
      in the view do not name each other in a circle. */
  lemma EffectiveShrinks(k: Kinds, s: State, e: Event, rank: Rank, base: nat)
    requires Inv(k, s) && Ranked(k, s.view, rank, base) && Effective(k, s, e)
    ensures Smaller(k, rank, base, Next(k, s, e), s)
  {
    match e
    case Deliver(r) => DeliverShrinks(k, s, r, rank, base);
    case Process(r, luck) =>
      if k.IsLeader(r) {
        ProcessLeaderShrinks(k, s, r, luck, rank, base);
      } else if k.IsFollower(r) {
        ProcessFollowerShrinks(k, s, r, luck, rank, base);
      } else {
        DropShrinks(k, s, r, rank, base);
      }
  }

  predicate OwnStep(e: Event) {
    e.Deliver? || e.Process?
  }

  /** The same leaders, with the same content. */
  ghost predicate SameLeaders(k: Kinds, a: Objects, b: Objects) {
    forall l :: k.IsLeader(l) ==> (l in a <==> l in b) && (l in a ==> a[l] == b[l])
  }

  /** Whatever the controller itself does, the stored leaders stay as they are, and the view of them only catches up. */
  lemma LeadersUntouched(k: Kinds, s: State, e: Event)
    requires OwnStep(e)
    ensures SameLeaders(k, s.api, Next(k, s, e).api)
    ensures forall l :: l in Next(k, s, e).view ==>
              (l in s.api && Next(k, s, e).view[l] == s.api[l]) || (l in s.view && Next(k, s, e).view[l] == s.view[l])
  {
    if e.Process? && e.r in s.queue && !k.IsLeader(e.r) && e.r.gk in k.known && k.IsFollower(e.r) {
      ProcessFollowerTouches(k, s, e.r, e.luck);
    }
  }

  lemma SameLeadersRanked(k: Kinds, a: Objects, b: Objects, rank: Rank, base: nat)
    requires SameLeaders(k, a, b) && Ranked(k, a, rank, base)
    ensures Ranked(k, b, rank, base)
  {
    forall l, m | Names(k, b, l, m) ensures rank(m) < rank(l) { assert Names(k, a, l, m); }
  }

  /** Ranks for the stored and the seen leaders stay good from step to step, so one measure serves for a whole run. */
  lemma RanksStay(k: Kinds, s: State, e: Event, rank: Rank, base: nat)
    requires Ranked(k, s.api, rank, base) && Ranked(k, s.view, rank, base) && OwnStep(e)
    ensures Ranked(k, Next(k, s, e).api, rank, base) && Ranked(k, Next(k, s, e).view, rank, base)
  {
    var s' := Next(k, s, e);
    LeadersUntouched(k, s, e);
    SameLeadersRanked(k, s.api, s'.api, rank, base);
    forall l, m | Names(k, s'.view, l, m) ensures rank(m) < rank(l) {
      assert Names(k, s.api, l, m) || Names(k, s.view, l, m);
    }
  }

  /** With the leaders delivered, the view of them is what is stored. */
  lemma DeliveredRanks(k: Kinds, s: State, rank: Rank, base: nat)
    requires Ranked(k, s.api, rank, base) && forall l :: k.IsLeader(l) ==> Delivered(s, l)
    ensures Ranked(k, s.view, rank, base)
  {
    forall l | k.IsLeader(l) ensures (l in s.api <==> l in s.view) && (l in s.api ==> s.api[l] == s.view[l]) {
      assert Delivered(s, l);
    }
    SameLeadersRanked(k, s.api, s.view, rank, base);
  }

  /** An endless run of effective steps. */
  ghost predicate Endless(k: Kinds, states: nat -> State, events: nat -> Event) {
    forall i: nat :: Effective(k, states(i), events(i)) && states(i + 1) == Next(k, states(i), events(i))
  }

  /** There is none: whatever is delivered and processed in whatever order and with whatever failures, only finitely
      many steps have an effect, as long as neither the stored nor the seen leaders name each other in a circle. */
  lemma NoEndlessRun(k: Kinds, states: nat -> State, events: nat -> Event, rank: Rank, base: nat)
    requires Inv(k, states(0)) && Ranked(k, states(0).api, rank, base) && Ranked(k, states(0).view, rank, base)
    ensures !Endless(k, states, events)
  {
    if Endless(k, states, events) {
      EndlessDescent(k, states, events, rank, base, 0);
      assert false;
    }
  }

  /** While only the stored leaders are known to be free of circles, an endless run leaves some leader undelivered at
      every one of its states. */
  lemma EndlessRunStarvesInformer(k: Kinds, states: nat -> State, events: nat -> Event, rank: Rank, base: nat, i: nat)
    requires Endless(k, states, events) && Inv(k, states(0)) && Ranked(k, states(0).api, rank, base)
    ensures exists l :: k.IsLeader(l) && !Delivered(states(i), l)
  {
    EndlessKeeps(k, states, events, rank, base, i);
    var s := states(i);
    if forall l :: k.IsLeader(l) ==> Delivered(s, l) {
      DeliveredRanks(k, s, rank, base);
      EndlessDescent(k, states, events, rank, base, i);
      assert false;
    }
  }

  lemma {:induction false} EndlessKeeps(k: Kinds, states: nat -> State, events: nat -> Event, rank: Rank, base: nat,
                                        i: nat)
    requires Endless(k, states, events) && Inv(k, states(0)) && Ranked(k, states(0).api, rank, base)
    ensures Inv(k, states(i)) && Ranked(k, states(i).api, rank, base)
  {
    if i > 0 {
      var s, e := states(i - 1), events(i - 1);
      EndlessKeeps(k, states, events, rank, base, i - 1);
      assert Effective(k, s, e) && states(i - 1 + 1) == Next(k, s, e);
      NextInv(k, s, e);
      LeadersUntouched(k, s, e);
      SameLeadersRanked(k, s.api, states(i).api, rank, base);
    }
  }

  lemma {:induction false} EndlessDescent(k: Kinds, states: nat -> State, events: nat -> Event, rank: Rank, base: nat,
                                          i: nat)
    requires Endless(k, states, events)
    requires Inv(k, states(i)) && Ranked(k, states(i).api, rank, base) && Ranked(k, states(i).view, rank, base)
    ensures false
    decreases |UndeliveredLeaders(k, states(i))|, Weight(QueuedLeaders(k, states(i)), rank, base),
              OthersCost(k, states(i))
  {
    NextInv(k, states(i), events(i));
    RanksStay(k, states(i), events(i), rank, base);
    EffectiveShrinks(k, states(i), events(i), rank, base);
    EndlessDescent(k, states, events, rank, base, i + 1);
  }

  // ---------- Reaching quiescence ----------

  /** Nothing is retried for ever: the followers of every stored leader can be inferred, no key of a kind without a
      FederatedTypeConfig is queued or stored as a follower, and no follower is wanted by a leader of such a kind. */
  ghost predicate Serviceable(k: Kinds, s: State) {
    && (forall l :: l in s.api && k.IsLeader(l) && SchedulesFollowers(s.api[l]) ==>
          s.api[l].annotatedFollowers.Ok? && s.api[l].podSpecFollowers.Ok?)
    && (forall r :: r in s.queue ==> k.IsLeader(r) || r.gk in k.known)
    && (forall f :: f in s.api && k.IsFollower(f) ==> f.gk in k.known)
    && (forall f, l :: f in s.api && !s.api[f].disableFollowing && k.IsFollower(f) && Wants(k, s, l, f) ==>
          l.gk in k.known)
  }

  /** What the controller itself leaves as it is: which objects are stored, which leader wants whom, which followers
      have opted out, and, for ever, the queued keys of kinds without a FederatedTypeConfig. */
  lemma OwnStepKeeps(k: Kinds, s: State, e: Event)
    requires Inv(k, s) && OwnStep(e)
    ensures var s' := Next(k, s, e);
            && s'.api.Keys == s.api.Keys
            && (forall f :: f in s.api ==> s'.api[f].disableFollowing == s.api[f].disableFollowing)
            && (forall l, f :: Wants(k, s', l, f) <==> Wants(k, s, l, f))
            && (forall r :: r in s.queue && !k.IsLeader(r) && r.gk !in k.known ==> r in s'.queue)
  {
    LeadersUntouched(k, s, e);
    if e.Process? && e.r in s.queue && !k.IsLeader(e.r) && e.r.gk in k.known && k.IsFollower(e.r) {
      ProcessFollowerTouches(k, s, e.r, e.luck);
      ProcessFollowerKeepsObject(k, s, e.r, e.luck);
    }
  }

  lemma ProcessFollowerKeepsObject(k: Kinds, s: State, f: Ref, luck: Luck)
    requires Inv(k, s)
    ensures var s' := ProcessFollower(k, s, f, luck);
            && s'.api.Keys == s.api.Keys
            && (f in s.api ==> s'.api[f].disableFollowing == s.api[f].disableFollowing)
  {}

  lemma ServiceableStays(k: Kinds, s: State, e: Event)
    requires Inv(k, s) && Serviceable(k, s) && Effective(k, s, e)
    ensures Serviceable(k, Next(k, s, e))
  {
    var s' := Next(k, s, e);
    OwnStepKeeps(k, s, e);
    LeadersUntouched(k, s, e);
    forall r | r in s'.queue ensures k.IsLeader(r) || r.gk in k.known {
      if e.Process? && e.r in s.queue && !k.IsLeader(e.r) && e.r.gk in k.known && k.IsFollower(e.r) {
        ProcessFollowerTouches(k, s, e.r, e.luck);
      }
      assert Right(k, s, r);
    }
  }

  lemma ProcessLeaderWorks(k: Kinds, s: State, l: Ref, rank: Rank, base: nat)
    requires Inv(k, s) && Serviceable(k, s) && l in s.queue && k.IsLeader(l) && Delivered(s, l)
    requires Ranked(k, s.view, rank, base)
    ensures Effective(k, s, Process(l, FORTUNE))
  {
    assert !Names(k, s.view, l, l);
    forall f | f in FollowersOf(s, l) ensures !k.IsLeader(f) {
      assert Right(k, s, f);
    }
  }

  /** Once the leaders have been processed, those cached for a follower are those that want it, so all can be read. */
  lemma ProcessFollowerWorks(k: Kinds, s: State, f: Ref)
    requires Inv(k, s) && Serviceable(k, s) && f in s.queue && k.IsFollower(f)
    requires forall r :: Delivered(s, r)
    requires forall l :: k.IsLeader(l) ==> l !in s.queue
    ensures Effective(k, s, Process(f, FORTUNE))
  {
    if f in s.view {
      assert Delivered(s, f);
      forall l | l in DesiredLeaders(s, f, s.view[f]) ensures k.IsLeader(l) && l.gk in k.known {
        assert Right(k, s, l) && Delivered(s, l);
        InferredFrom(s.api[l], f);
        assert Wants(k, s, l, f);
      }
    }
  }

  /** Something effective can be done in any serviceable state that is not quiescent. */
  lemma EffectiveExists(k: Kinds, s: State, rank: Rank, base: nat) returns (e: Event)
    requires Inv(k, s) && Serviceable(k, s) && !Quiescent(s) && Ranked(k, s.api, rank, base)
    ensures Effective(k, s, e) && Smaller(k, rank, base, Next(k, s, e), s)
  {
    if r :| !Delivered(s, r) {
      e := Deliver(r);
      DeliverShrinks(k, s, r, rank, base);
    } else {
      DeliveredRanks(k, s, rank, base);
      if l :| l in s.queue && k.IsLeader(l) {
        e := Process(l, FORTUNE);
        ProcessLeaderWorks(k, s, l, rank, base);
      } else {
        var f :| f in s.queue;
        e := Process(f, FORTUNE);
        if k.IsFollower(f) { ProcessFollowerWorks(k, s, f); }
      }
      EffectiveShrinks(k, s, e, rank, base);
    }
  }

  ghost predicate AllEffective(k: Kinds, s: State, es: seq<Event>)
    decreases |es|
  {
    es == [] || (Effective(k, s, es[0]) && AllEffective(k, Next(k, s, es[0]), es[1..]))
  }

  /** From any serviceable state the controller can come to rest by its own deliveries and passes alone, and then every
      follower agrees with all leaders. */
  lemma {:induction false} Converges(k: Kinds, s: State, rank: Rank, base: nat) returns (es: seq<Event>)
    requires Inv(k, s) && Serviceable(k, s) && Ranked(k, s.api, rank, base)
    ensures AllEffective(k, s, es) && Quiescent(Run(k, s, es))
    ensures forall f :: k.IsFollower(f) ==> Agrees(k, Run(k, s, es), f)
    decreases |UndeliveredLeaders(k, s)|, Weight(QueuedLeaders(k, s), rank, base), OthersCost(k, s)
  {
    if Quiescent(s) {
      es := [];
      forall f | k.IsFollower(f) ensures Agrees(k, s, f) { QuiescentAgrees(k, s, f); }
    } else {
      var e := EffectiveExists(k, s, rank, base);
      EffectiveStepKeeps(k, s, e, rank, base);
      var rest := Converges(k, Next(k, s, e), rank, base);
      es := [e] + rest;
      assert es[0] == e && es[1..] == rest;
    }
  }

  lemma EffectiveStepKeeps(k: Kinds, s: State, e: Event, rank: Rank, base: nat)
    requires Inv(k, s) && Serviceable(k, s) && Ranked(k, s.api, rank, base) && Effective(k, s, e)
    ensures var s' := Next(k, s, e); Inv(k, s') && Serviceable(k, s') && Ranked(k, s'.api, rank, base)
  {
    NextInv(k, s, e);
    ServiceableStays(k, s, e);
    LeadersUntouched(k, s, e);
    SameLeadersRanked(k, s.api, Next(k, s, e).api, rank, base);
  }

  /** No delivery and no pass has an effect any more. */
  ghost predicate NothingLeft(k: Kinds, s: State) {
    forall e :: !Effective(k, s, e)
  }

  /** Whatever the order and whatever the failures: a run of effective steps that cannot be extended has come to rest,
      and every follower agrees with all leaders. */
  lemma {:induction false} MaximalRunRests(k: Kinds, s: State, es: seq<Event>, rank: Rank, base: nat)
    requires Inv(k, s) && Serviceable(k, s) && Ranked(k, s.api, rank, base)
    requires AllEffective(k, s, es) && NothingLeft(k, Run(k, s, es))
    ensures Quiescent(Run(k, s, es))
    ensures forall f :: k.IsFollower(f) ==> Agrees(k, Run(k, s, es), f)
    decreases |es|
  {
    if es == [] {
      if !Quiescent(s) {
        var e := EffectiveExists(k, s, rank, base);
        assert false;
      }
      forall f | k.IsFollower(f) ensures Agrees(k, s, f) { QuiescentAgrees(k, s, f); }
    } else {
      EffectiveStepKeeps(k, s, es[0], rank, base);
      MaximalRunRests(k, Next(k, s, es[0]), es[1..], rank, base);
    }
  }

  // ---------- Leaders in a circle never rest ----------

  ghost predicate OwnSteps(es: seq<Event>) {
    forall e :: e in es ==> OwnStep(e)
  }

  /** Something is still to be done about `l`. */
  predicate Stirs(s: State, l: Ref) {
    !Delivered(s, l) || l in s.queue
  }

  ghost predicate Awake(s: State, c: set<Ref>) {
    exists l :: l in c && Stirs(s, l)
  }

  lemma LoopMember(k: Kinds, objects: Objects, c: set<Ref>, l: Ref) returns (m: Ref)
    requires Loop(k, objects, c) && l in c
    ensures m in c && Names(k, objects, l, m)
  {
    var edge := Edge(k, objects);
    assert StaysIn(edge, c, l);
    m :| m in c && edge(l, m);
  }

  lemma SameLeadersLoop(k: Kinds, a: Objects, b: Objects, c: set<Ref>)
    requires Loop(k, a, c) && forall l :: l in c && k.IsLeader(l) && l in a ==> l in b && a[l] == b[l]
    ensures Loop(k, b, c)
  {
    forall l | l in c ensures StaysIn(Edge(k, b), c, l) {
      var m := LoopMember(k, a, c, l);
      assert Names(k, b, l, m);
      assert Edge(k, b)(l, m);
    }
  }

  /** Delivering a member queues it, and a delivered member's pass queues the member it names. */
  lemma LoopStaysAwake(k: Kinds, s: State, e: Event, c: set<Ref>)
    requires Loop(k, s.api, c) && Awake(s, c) && OwnStep(e)
    ensures Awake(Next(k, s, e), c)
  {
    var s' := Next(k, s, e);
    var l :| l in c && Stirs(s, l);
    var m := LoopMember(k, s.api, c, l);
    if e.Process? && e.r in s.queue && !k.IsLeader(e.r) && e.r.gk in k.known && k.IsFollower(e.r) {
      ProcessFollowerTouches(k, s, e.r, e.luck);
    }
    assert Stirs(s', l) || Stirs(s', m);
  }

  /** While leaders name each other in a circle, no run of deliveries and passes, in whatever order and with whatever
      failures, brings the controller to rest. */
  lemma {:induction false} LoopNeverRests(k: Kinds, s: State, c: set<Ref>, es: seq<Event>)
    requires Loop(k, s.api, c) && Awake(s, c) && OwnSteps(es)
    ensures Awake(Run(k, s, es), c) && !Quiescent(Run(k, s, es))
    decreases |es|
  {
    if es != [] {
      var s' := Next(k, s, es[0]);
      LoopStaysAwake(k, s, es[0], c);
      LeadersUntouched(k, s, es[0]);
      SameLeadersLoop(k, s.api, s'.api, c);
      LoopNeverRests(k, s', c, es[1..]);
    }
  }

  /** A leader that names itself is still to be processed after every such run, once there was something to
      do about it. */
  lemma SelfFollowerNeverRests(k: Kinds, s: State, l: Ref, es: seq<Event>)
    requires Names(k, s.api, l, l) && Stirs(s, l) && OwnSteps(es)
    ensures Stirs(Run(k, s, es), l)
  {
    assert Edge(k, s.api)(l, l);
    assert StaysIn(Edge(k, s.api), {l}, l);
    LoopNeverRests(k, s, {l}, es);
  }

  // ---------- Reachable states ----------

  /** No circle of leaders is asleep. */
  ghost predicate LoopsAwake(k: Kinds, s: State) {
    forall c: set<Ref> :: Loop(k, s.api, c) ==> Awake(s, c)
  }

  /** A write or a deletion closes a circle only by leaving a member undelivered. */
  lemma ForeignStepKeepsAwake(k: Kinds, s: State, e: Event, c: set<Ref>)
    requires Inv(k, s) && LoopsAwake(k, s) && !OwnStep(e) && Loop(k, Next(k, s, e).api, c)
    ensures Awake(Next(k, s, e), c)
  {
    var s' := Next(k, s, e);
    if e.r in c {
      var m := LoopMember(k, s'.api, c, e.r);
      assert Stirs(s', e.r);
    } else {
      SameLeadersLoop(k, s'.api, s.api, c);
      var l :| l in c && Stirs(s, l);
      assert Stirs(s', l);
    }
  }

  lemma {:induction false} ReachableLoopsAwake(k: Kinds, s: State, es: seq<Event>)
    requires Inv(k, s) && LoopsAwake(k, s)
    ensures LoopsAwake(k, Run(k, s, es))
    decreases |es|
  {
    if es != [] {
      var e, s' := es[0], Next(k, s, es[0]);
      forall c: set<Ref> | Loop(k, s'.api, c) ensures Awake(s', c) {
        if OwnStep(e) {
          LeadersUntouched(k, s, e);
          SameLeadersLoop(k, s'.api, s.api, c);
          LoopStaysAwake(k, s, e, c);
        } else {
          ForeignStepKeepsAwake(k, s, e, c);
        }
      }
      NextInv(k, s, e);
      ReachableLoopsAwake(k, s', es[1..]);
    }
  }

  lemma InitialLoopsAwake(k: Kinds, api: Objects, revision: nat)
    ensures LoopsAwake(k, Initial(api, revision))
  {
    var s := Initial(api, revision);
    forall c: set<Ref> | Loop(k, api, c) ensures Awake(s, c) {
      var l :| l in c;
      var m := LoopMember(k, api, c, l);
      assert Stirs(s, l);
    }
  }

  ghost predicate CanRest(k: Kinds, s: State) {
    exists es: seq<Event> :: OwnSteps(es) && Quiescent(Run(k, s, es))
  }

  lemma {:induction false} EffectiveAreOwn(k: Kinds, s: State, es: seq<Event>)
    requires AllEffective(k, s, es)
    ensures OwnSteps(es)
    decreases |es|
  {
    if es != [] {
      EffectiveAreOwn(k, Next(k, s, es[0]), es[1..]);
      assert forall e :: e in es ==> e == es[0] || e in es[1..];
    }
  }

  /** The leaders cached for a follower that is not queued have a FederatedTypeConfig, unless it has opted out. */
  ghost predicate LeadersKnown(k: Kinds, s: State, f: Ref) {
    k.IsFollower(f) && f !in s.queue && f in s.view && !s.view[f].disableFollowing ==>
      forall l :: l in LeadersOf(s, f) ==> l.gk in k.known
  }

  lemma LeadersKnownStays(k: Kinds, s: State, e: Event, f: Ref)
    requires Inv(k, s) && LeadersKnown(k, s, f)
    ensures LeadersKnown(k, Next(k, s, e), f)
  {
    assert Right(k, s, f);
    if e.Process? && e.r in s.queue && !k.IsLeader(e.r) && e.r.gk in k.known && k.IsFollower(e.r) {
      ProcessFollowerTouches(k, s, e.r, e.luck);
      assert LeadersOf(Next(k, s, e), f) == LeadersOf(s, f);
    }
  }

  lemma {:induction false} ReachableLeadersKnown(k: Kinds, s: State, es: seq<Event>)
    requires Inv(k, s) && forall f :: LeadersKnown(k, s, f)
    ensures forall f :: LeadersKnown(k, Run(k, s, es), f)
    decreases |es|
  {
    if es != [] {
      var s' := Next(k, s, es[0]);
      forall f ensures LeadersKnown(k, s', f) { LeadersKnownStays(k, s, es[0], f); }
      NextInv(k, s, es[0]);
      ReachableLeadersKnown(k, s', es[1..]);
    }
  }

  lemma QuiescentIsServiceable(k: Kinds, s: State)
    requires Inv(k, s) && Quiescent(s) && forall f :: LeadersKnown(k, s, f)
    ensures Serviceable(k, s)
  {
    forall r | r in s.api && (k.IsLeader(r) || k.IsFollower(r))
      ensures if k.IsLeader(r) then InferFollowers(s.api[r]).Ok? else r.gk in k.known
    {
      assert Delivered(s, r) && Right(k, s, r);
    }
    forall f, l | f in s.api && !s.api[f].disableFollowing && k.IsFollower(f) && Wants(k, s, l, f)
      ensures l.gk in k.known
    {
      assert Delivered(s, f) && Delivered(s, l) && Right(k, s, l) && LeadersKnown(k, s, f);
      InferredFrom(s.api[l], f);
      assert l in LeadersOf(s, f);
    }
  }

  /** What the controller would retry for ever is there from the start: a state from which its own steps can come to
      rest is serviceable. */
  lemma {:induction false} RestMeansServiceable(k: Kinds, s: State, es: seq<Event>)
    requires Inv(k, s) && (forall f :: LeadersKnown(k, s, f)) && OwnSteps(es) && Quiescent(Run(k, s, es))
    ensures Serviceable(k, s)
    decreases |es|
  {
    if es == [] {
      QuiescentIsServiceable(k, s);
    } else {
      var e, s' := es[0], Next(k, s, es[0]);
      forall f ensures LeadersKnown(k, s', f) { LeadersKnownStays(k, s, e, f); }
      NextInv(k, s, e);
      RestMeansServiceable(k, s', es[1..]);
      LeadersUntouched(k, s, e);
      OwnStepKeeps(k, s, e);
    }
  }

  /** When others stop writing, in whatever state a run of writes, deletions, deliveries and passes has left the
      controller: its own steps can bring it to rest exactly when no stored leaders name each other in a circle and
      there is nothing it would retry for ever. */
  lemma RestsIffAcyclic(k: Kinds, api: Objects, revision: nat, before: seq<Event>)
    requires forall r :: r in api ==> api[r].version <= revision
    ensures var s := Run(k, Initial(api, revision), before);
            CanRest(k, s) <==> Acyclic(k, s.api) && Serviceable(k, s)
  {
    var start := Initial(api, revision);
    var s := Run(k, start, before);
    InitialInv(k, api, revision);
    InitialLoopsAwake(k, api, revision);
    ReachableInv(k, start, before);
    ReachableLoopsAwake(k, start, before);
    assert forall f :: LeadersKnown(k, start, f);
    ReachableLeadersKnown(k, start, before);
    if Acyclic(k, s.api) {
      if Serviceable(k, s) {
        var rank, base := AcyclicHasRanks(k, s.api);
        var es := Converges(k, s, rank, base);
        EffectiveAreOwn(k, s, es);
      } else if es: seq<Event> :| OwnSteps(es) && Quiescent(Run(k, s, es)) {
        RestMeansServiceable(k, s, es);
        assert false;
      }
    } else {
      var p :| Cycle(k, s.api, p);
      CycleIsLoop(k, s.api, p);
      forall es: seq<Event> | OwnSteps(es) ensures !Quiescent(Run(k, s, es)) {
        LoopNeverRests(k, s, (set x | x in p), es);
      }
    }
  }
}
