/** Which leaders name which other leaders as their followers. A leader that is named is queued as a leader again,
    so this relation decides whether the follower controller can come to rest
    (`pkg/controllers/follower/controller.go`). */
module LeaderNaming {
  import opened FollowerProtocol

  type Objects = map<Ref, FedObject>

  /** The references of leader kinds that processing the leader `o` puts into the queue. */
  function Named(k: Kinds, o: FedObject): set<Ref> {
    var inferred := InferFollowers(o);
    if inferred.Err? then {} else set m | m in inferred.value && k.IsLeader(m) && m.gk in k.known
  }

  predicate Names(k: Kinds, objects: Objects, l: Ref, m: Ref) {
    k.IsLeader(l) && l in objects && m in Named(k, objects[l])
  }

  function Edge(k: Kinds, objects: Objects): (Ref, Ref) -> bool {
    (l, m) => Names(k, objects, l, m)
  }

  /** Leaders that name each other in a circle; one leader that names itself is the smallest case. */
  ghost predicate Cycle(k: Kinds, objects: Objects, p: seq<Ref>) {
    Circle(Edge(k, objects), p)
  }

  /** A set of leaders each of which names a member of the set. */
  ghost predicate Loop(k: Kinds, objects: Objects, c: set<Ref>) {
    c != {} && NeverLeft(Edge(k, objects), c)
  }

  lemma CycleIsLoop(k: Kinds, objects: Objects, p: seq<Ref>)
    requires Cycle(k, objects, p)
    ensures Loop(k, objects, set x | x in p)
  {
    CircleNeverLeft(Edge(k, objects), p);
  }

  lemma LoopHoldsCycle(k: Kinds, objects: Objects, c: set<Ref>) returns (p: seq<Ref>)
    requires Loop(k, objects, c)
    ensures Cycle(k, objects, p)
  {
    p := CircleWithin(Edge(k, objects), c);
  }

  // ---------- Circles in any relation ----------

  ghost predicate Circle<T(!new)>(edge: (T, T) -> bool, p: seq<T>) {
    p != [] && forall i :: 0 <= i < |p| ==> edge(p[i], p[if i + 1 < |p| then i + 1 else 0])
  }

  ghost predicate StaysIn<T(!new)>(edge: (T, T) -> bool, c: set<T>, l: T) {
    exists m :: m in c && edge(l, m)
  }

  ghost predicate NeverLeft<T(!new)>(edge: (T, T) -> bool, c: set<T>) {
    forall l {:trigger StaysIn(edge, c, l)} :: l in c ==> StaysIn(edge, c, l)
  }

  lemma CircleNeverLeft<T(!new)>(edge: (T, T) -> bool, p: seq<T>)
    requires Circle(edge, p)
    ensures var c := set x | x in p; c != {} && NeverLeft(edge, c)
  {
    var c := set x | x in p;
    assert p[0] in c;
    forall l | l in c ensures StaysIn(edge, c, l) {
      var i :| 0 <= i < |p| && p[i] == l;
      var m := p[if i + 1 < |p| then i + 1 else 0];
      assert m in c && edge(l, m);
    }
  }

  ghost predicate Walk<T(!new)>(edge: (T, T) -> bool, c: set<T>, walk: seq<T>) {
    && walk != []
    && (forall i :: 0 <= i < |walk| ==> walk[i] in c)
    && (forall i, j :: 0 <= i < j < |walk| ==> walk[i] != walk[j])
    && (forall i :: 0 <= i < |walk| - 1 ==> edge(walk[i], walk[i + 1]))
  }

  lemma {:induction false} DistinctFit<T>(walk: seq<T>, c: set<T>)
    requires (forall i :: 0 <= i < |walk| ==> walk[i] in c) && forall i, j :: 0 <= i < j < |walk| ==> walk[i] != walk[j]
    ensures |walk| <= |c|
  {
    if walk != [] { DistinctFit(walk[1..], c - {walk[0]}); }
  }

  /** Walking on within a set that is never left must come back to where the walk has been. */
  lemma {:induction false} WalkCloses<T(!new)>(edge: (T, T) -> bool, c: set<T>, walk: seq<T>) returns (p: seq<T>)
    requires Walk(edge, c, walk) && NeverLeft(edge, c)
    ensures Circle(edge, p)
    decreases |c| - |walk|
  {
    var last := |walk| - 1;
    assert walk[last] in c && StaysIn(edge, c, walk[last]);
    var m :| m in c && edge(walk[last], m);
    if i :| 0 <= i <= last && walk[i] == m {
      p := walk[i..];
      CloseAt(edge, c, walk, i);
    } else {
      WalkOn(edge, c, walk, m);
      DistinctFit(walk + [m], c);
      p := WalkCloses(edge, c, walk + [m]);
    }
  }

  lemma CloseAt<T(!new)>(edge: (T, T) -> bool, c: set<T>, walk: seq<T>, i: nat)
    requires Walk(edge, c, walk) && i < |walk| && edge(walk[|walk| - 1], walk[i])
    ensures Circle(edge, walk[i..])
  {
    var p := walk[i..];
    forall j | 0 <= j < |p| ensures edge(p[j], p[if j + 1 < |p| then j + 1 else 0]) {
      if j + 1 < |p| { assert edge(walk[i + j], walk[i + j + 1]); }
    }
  }

  lemma WalkOn<T(!new)>(edge: (T, T) -> bool, c: set<T>, walk: seq<T>, m: T)
    requires Walk(edge, c, walk) && m in c && m !in walk && edge(walk[|walk| - 1], m)
    ensures Walk(edge, c, walk + [m])
  {}

  lemma CircleWithin<T(!new)>(edge: (T, T) -> bool, c: set<T>) returns (p: seq<T>)
    requires c != {} && NeverLeft(edge, c)
    ensures Circle(edge, p)
  {
    var l :| l in c;
    p := WalkCloses(edge, c, [l]);
  }

  // ---------- Ranks ----------

  type Rank = Ref -> nat

  /** Every leader has a higher rank than the leaders it names, of which there are fewer than `base`. */
  ghost predicate Ranked(k: Kinds, objects: Objects, rank: Rank, base: nat) {
    && (forall l, m :: Names(k, objects, l, m) ==> rank(m) < rank(l))
    && (forall l :: l in objects && k.IsLeader(l) ==> |Named(k, objects[l])| < base)
    && base > 0
  }

  ghost predicate Acyclic(k: Kinds, objects: Objects) {
    forall p: seq<Ref> :: !Cycle(k, objects, p)
  }

  lemma Sink(k: Kinds, objects: Objects, s: set<Ref>) returns (sink: Ref)
    requires Acyclic(k, objects) && s != {}
    ensures sink in s && forall m :: m in s ==> !Names(k, objects, sink, m)
  {
    var edge := Edge(k, objects);
    if Loop(k, objects, s) {
      var p := LoopHoldsCycle(k, objects, s);
      assert false;
    }
    sink :| sink in s && !StaysIn(edge, s, sink);
    forall m | m in s ensures !Names(k, objects, sink, m) { assert !edge(sink, m); }
  }

  /** Without a cycle leaders can be peeled off one after the other, each naming none of those that are left. */
  lemma {:induction false} PeelRanks(k: Kinds, objects: Objects, s: set<Ref>) returns (ranks: map<Ref, nat>)
    requires Acyclic(k, objects)
    ensures ranks.Keys == s
    ensures forall l, m :: l in s && m in s && Names(k, objects, l, m) ==> ranks[m] < ranks[l]
    decreases s
  {
    if s == {} {
      ranks := map[];
    } else {
      var sink := Sink(k, objects, s);
      var rest := PeelRanks(k, objects, s - {sink});
      ranks := map x | x in s :: if x == sink then 0 else rest[x] + 1;
    }
  }

  lemma AcyclicHasRanks(k: Kinds, objects: Objects) returns (rank: Rank, base: nat)
    requires Acyclic(k, objects)
    ensures Ranked(k, objects, rank, base)
  {
    var ranks := PeelRanks(k, objects, objects.Keys);
    rank := (x: Ref) => if x in ranks then ranks[x] + 1 else 0;
    var all := set l, m | l in objects && m in Named(k, objects[l]) :: m;
    base := |all| + 1;
    forall l | l in objects ensures |Named(k, objects[l])| < base {
      SubsetSize(Named(k, objects[l]), all);
    }
  }

  lemma {:induction false} SubsetSize<T>(a: set<T>, b: set<T>)
    requires a <= b
    ensures |a| <= |b|
    ensures a != b ==> |a| < |b|
  {
    if a != b {
      assert b == a + (b - a) && a !! (b - a);
      assert |b| == |a| + |b - a|;
      assert b - a != {};
    }
  }

  // ---------- The weight of a queue ----------

  function Pow(base: nat, n: nat): nat {
    if n == 0 then 1 else base * Pow(base, n - 1)
  }

  lemma {:induction false} PowGrows(base: nat, m: nat, n: nat)
    requires base > 0 && m <= n
    ensures 0 < Pow(base, m) <= Pow(base, n)
    decreases n
  {
    if m < n {
      PowGrows(base, m, n - 1);
      Scaled(1, base, Pow(base, n - 1));
    } else if n > 0 {
      PowGrows(base, n - 1, n - 1);
      Scaled(1, base, Pow(base, n - 1));
    }
  }

  lemma Scaled(a: nat, b: nat, x: nat)
    requires a <= b
    ensures a * x <= b * x
  {}

  lemma OneMore(n: nat, x: nat)
    ensures (n + 1) * x == n * x + x
  {}

  /** Each member weighs more than everything it can put into the queue. */
  ghost function Weight(q: set<Ref>, rank: Rank, base: nat): nat {
    if q == {} then 0 else var x :| x in q; Pow(base, rank(x)) + Weight(q - {x}, rank, base)
  }

  lemma {:induction false} WeightSplit(q: set<Ref>, x: Ref, rank: Rank, base: nat)
    requires x in q
    ensures Weight(q, rank, base) == Pow(base, rank(x)) + Weight(q - {x}, rank, base)
  {
    var y :| y in q && Weight(q, rank, base) == Pow(base, rank(y)) + Weight(q - {y}, rank, base);
    if y != x {
      WeightSplit(q - {y}, x, rank, base);
      WeightSplit(q - {x}, y, rank, base);
      assert q - {y} - {x} == q - {x} - {y};
    }
  }

  lemma {:induction false} WeightUnion(a: set<Ref>, b: set<Ref>, rank: Rank, base: nat)
    ensures Weight(a + b, rank, base) <= Weight(a, rank, base) + Weight(b, rank, base)
    decreases b
  {
    if b == {} {
      assert a + b == a;
    } else {
      var y :| y in b;
      WeightSplit(b, y, rank, base);
      WeightUnion(a, b - {y}, rank, base);
      if y in a {
        assert a + b == a + (b - {y});
      } else {
        WeightSplit(a + b, y, rank, base);
        assert a + b - {y} == a + (b - {y});
      }
    }
  }

  lemma {:induction false} WeightBelow(q: set<Ref>, r: nat, rank: Rank, base: nat)
    requires base > 0 && forall x :: x in q ==> rank(x) <= r
    ensures Weight(q, rank, base) <= |q| * Pow(base, r)
    decreases q
  {
    if q != {} {
      var x :| x in q;
      WeightSplit(q, x, rank, base);
      WeightBelow(q - {x}, r, rank, base);
      PowGrows(base, rank(x), r);
      assert |q| == |q - {x}| + 1;
      OneMore(|q - {x}|, Pow(base, r));
    }
  }

  /** Replacing a member by fewer than `base` others of lower rank makes the queue lighter. */
  lemma WeightDrops(q: set<Ref>, l: Ref, named: set<Ref>, rank: Rank, base: nat)
    requires l in q && base > 0 && |named| < base && forall m :: m in named ==> rank(m) < rank(l)
    ensures Weight(q - {l} + named, rank, base) < Weight(q, rank, base)
  {
    WeightSplit(q, l, rank, base);
    WeightUnion(q - {l}, named, rank, base);
    PowGrows(base, 0, rank(l));
    if named != {} {
      var r := rank(l) - 1;
      WeightBelow(named, r, rank, base);
      PowGrows(base, 0, r);
      Scaled(|named|, base - 1, Pow(base, r));
      OneMore(base - 1, Pow(base, r));
    }
  }
}
