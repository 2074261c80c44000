/** The pending-controllers annotation (`pkg/util/pendingcontrollers/pendingcontrollers.go`): a list of groups of
    controller names that still have to look at a federated object, in the order of its FederatedTypeConfig. */
module PendingControllers {
  import opened Filters
  import opened Wrappers

  type Name = string
  type Groups = seq<seq<Name>>

  // ---------- Groups ----------

  function Normalize(groups: Groups): Groups {
    if groups == [] then []
    else if groups[0] == [] then Normalize(groups[1..])
    else [groups[0]] + Normalize(groups[1..])
  }

  function Flatten(groups: Groups): seq<Name> {
    if groups == [] then [] else groups[0] + Flatten(groups[1..])
  }

  /** The groups after the first group that holds `current`. */
  function Downstream(all: Groups, current: Name): Groups {
    if all == [] then []
    else if current in all[0] then all[1..]
    else Downstream(all[1..], current)
  }

  function RemoveFirst(group: seq<Name>, x: Name): seq<Name> {
    if group == [] then []
    else if group[0] == x then group[1..]
    else [group[0]] + RemoveFirst(group[1..], x)
  }

  /** The list after `controller` reports, where `pending` is the normalised list it read. */
  function Update(pending: Groups, controller: Name, modified: bool, all: Groups): Groups {
    var head := if pending == [] then [] else pending[0];
    var rest := if modified then Downstream(all, controller) else if pending == [] then [] else pending[1..];
    Normalize([RemoveFirst(head, controller)] + rest)
  }

  predicate DependenciesFulfilled(pending: Groups, controller: Name) {
    pending == [] || controller in pending[0]
  }

  // ---------- The annotation and the functions that read and write it ----------

  /** The annotation's text, up to what JSON decoding can tell: `Canonical(g)` is exactly the text json.Marshal
      writes for `g`, `Other(g)` any other text that decodes to `g`. */
  datatype Annotation = Absent | Malformed | Canonical(groups: Groups) | Other(groups: Groups)

  function Decode(a: Annotation): Result<Groups> {
    match a
    case Absent => Err
    case Malformed => Err
    case Canonical(g) => Ok(Normalize(g))
    case Other(g) => Ok(Normalize(g))
  }

  method NormalizeControllers(controllers: Groups) returns (output: Groups)
    ensures output == Normalize(controllers)
    ensures output == Kept(controllers, group => group != [])
  {
    output := [];
    for i := 0 to |controllers|
      invariant output + Normalize(controllers[i..]) == Normalize(controllers)
    {
      if |controllers[i]| == 0 { continue; }
      assert controllers[i..][1..] == controllers[i + 1..];
      output := output + [controllers[i]];
    }
    NormalizeFilters(controllers);
  }

  /** The normal form keeps the groups that are not empty, in their order. */
  lemma {:induction false} NormalizeFilters(groups: Groups)
    ensures Normalize(groups) == Kept(groups, group => group != [])
  {
    if groups != [] {
      NormalizeFilters(groups[1..]);
      KeptConcat([groups[0]], groups[1..], group => group != []);
      assert [groups[0]] + groups[1..] == groups;
      assert [groups[0]][..0] == [];
    }
  }

  method GetDownstreamControllers(all: Groups, current: Name) returns (downstream: Groups)
    ensures downstream == Downstream(all, current)
  {
    for i := 0 to |all|
      invariant Downstream(all[i..], current) == Downstream(all, current)
    {
      for j := 0 to |all[i]|
        invariant current !in all[i][..j]
      {
        if all[i][j] == current {
          assert all[i..][1..] == all[i + 1..];
          return all[i + 1..];
        }
      }
      assert all[i..][1..] == all[i + 1..];
    }
    return [];
  }

  /** The removal loop of UpdatePendingControllers. */
  method RemoveController(group: seq<Name>, toRemove: Name) returns (current: seq<Name>)
    ensures current == RemoveFirst(group, toRemove)
  {
    current := group;
    for i := 0 to |group|
      invariant current == group
      invariant toRemove !in group[..i]
    {
      if group[i] == toRemove {
        RemoveFirstAt(group, i);
        current := current[..i] + current[i + 1..];
        return;
      }
    }
    RemoveAbsent(group, toRemove);
  }

  lemma {:induction false} RemoveFirstAt(group: seq<Name>, i: nat)
    requires i < |group| && group[i] !in group[..i]
    ensures RemoveFirst(group, group[i]) == group[..i] + group[i + 1..]
  {
    if i > 0 {
      assert group[0] in group[..i] && forall x :: x in group[1..][..i - 1] ==> x in group[..i];
      RemoveFirstAt(group[1..], i - 1);
    }
  }

  class FederatedObject {
    var pendingAnnotation: Annotation

    constructor (a: Annotation)
      ensures pendingAnnotation == a
    {
      pendingAnnotation := a;
    }

    method GetPendingControllers() returns (r: Result<Groups>)
      ensures r == Decode(pendingAnnotation)
      ensures r.Err? <==> pendingAnnotation.Absent? || pendingAnnotation.Malformed?
      ensures r.Ok? ==> r.value == Kept(pendingAnnotation.groups, group => group != [])
    {
      match pendingAnnotation {
        case Absent => r := Err;
        case Malformed => r := Err;
        case Canonical(g) => var n := NormalizeControllers(g); r := Ok(n);
        case Other(g) => var n := NormalizeControllers(g); r := Ok(n);
      }
      if r.Ok? { NormalizeFilters(pendingAnnotation.groups); }
    }

    method SetPendingControllers(controllers: Groups) returns (updated: bool)
      modifies this
      ensures pendingAnnotation == Canonical(Normalize(controllers))
      ensures updated <==> pendingAnnotation != old(pendingAnnotation)
    {
      var normalized := NormalizeControllers(controllers);
      updated := pendingAnnotation != Canonical(normalized);
      if updated {
        pendingAnnotation := Canonical(normalized);
      }
    }

    method UpdatePendingControllers(toRemove: Name, shouldSetDownstream: bool, all: Groups) returns (r: Result<bool>)
      modifies this
      ensures match Decode(old(pendingAnnotation))
              case Err => r == Err && pendingAnnotation == old(pendingAnnotation)
              case Ok(pending) =>
                && pendingAnnotation == Canonical(Update(pending, toRemove, shouldSetDownstream, all))
                && r == Ok(pendingAnnotation != old(pendingAnnotation))
    {
      var pending := GetPendingControllers();
      if pending.Err? { return Err; }

      var current: seq<Name>, rest: Groups := [], [];
      if |pending.value| > 0 {
        current, rest := pending.value[0], pending.value[1..];
      }
      current := RemoveController(current, toRemove);
      if shouldSetDownstream {
        rest := GetDownstreamControllers(all, toRemove);
      }
      NormalizeIdempotent(Normalize([current] + rest));
      var updated := SetPendingControllers([current] + rest);
      return Ok(updated);
    }

    method ControllerDependenciesFulfilled(controllerName: Name) returns (r: Result<bool>)
      ensures match Decode(pendingAnnotation)
              case Err => r == Err
              case Ok(pending) =>
                && r == Ok(DependenciesFulfilled(pending, controllerName))
                && (r.value <==> pending == [] || controllerName in pending[0])
    {
      var pending := GetPendingControllers();
      if pending.Err? { return Err; }
      if |pending.value| == 0 { return Ok(true); }
      var group := pending.value[0];
      for i := 0 to |group|
        invariant controllerName !in group[..i]
      {
        if group[i] == controllerName { return Ok(true); }
      }
      return Ok(false);
    }
  }

  // ---------- Lemmas about groups ----------

  ghost predicate Clean(groups: Groups) {
    forall i :: 0 <= i < |groups| ==> groups[i] != []
  }

  /** No controller is named twice, within a group or across groups. */
  predicate Distinct(groups: Groups) {
    || groups == []
    || (NoDuplicates(groups[0]) && Distinct(groups[1..]) && forall x :: x in groups[0] ==> x !in Flatten(groups[1..]))
  }

  predicate NoDuplicates(s: seq<Name>) {
    forall i, j :: 0 <= i < j < |s| ==> s[i] != s[j]
  }

  lemma {:induction false} NormalizeIdempotent(groups: Groups)
    ensures Clean(Normalize(groups))
    ensures Clean(groups) ==> Normalize(groups) == groups
    ensures Flatten(Normalize(groups)) == Flatten(groups)
  {
    if groups != [] {
      NormalizeIdempotent(groups[1..]);
      if groups[0] != [] {
        assert Normalize(groups)[1..] == Normalize(groups[1..]);
        assert [groups[0]] + groups[1..] == groups;
      }
    }
  }

  lemma {:induction false} NormalizeDistinct(groups: Groups)
    requires Distinct(groups)
    ensures Distinct(Normalize(groups))
  {
    if groups != [] {
      NormalizeDistinct(groups[1..]);
      NormalizeIdempotent(groups[1..]);
      if groups[0] != [] {
        assert Normalize(groups)[1..] == Normalize(groups[1..]);
      }
    }
  }

  lemma {:induction false} InFlatten(groups: Groups, i: nat, c: Name)
    requires i < |groups| && c in groups[i]
    ensures c in Flatten(groups)
  {
    if i > 0 { InFlatten(groups[1..], i - 1, c); }
  }

  lemma {:induction false} DownstreamOfNormalized(all: Groups, c: Name)
    ensures Normalize(Downstream(all, c)) == Downstream(Normalize(all), c)
  {
    if all != [] {
      DownstreamOfNormalized(all[1..], c);
      if all[0] != [] {
        assert Normalize(all)[0] == all[0] && Normalize(all)[1..] == Normalize(all[1..]);
      }
    }
  }

  lemma {:induction false} DownstreamAt(groups: Groups, i: nat, c: Name)
    requires Distinct(groups) && i < |groups| && c in groups[i]
    ensures Downstream(groups, c) == groups[i + 1..]
    ensures NoDuplicates(groups[i])
  {
    if i > 0 {
      InFlatten(groups[1..], i - 1, c);
      DownstreamAt(groups[1..], i - 1, c);
    }
  }

  lemma {:induction false} SameGroup(groups: Groups, i: nat, j: nat, c: Name)
    requires Distinct(groups) && i < |groups| && j < |groups| && c in groups[i] && c in groups[j]
    ensures i == j
  {
    DownstreamAt(groups, i, c);
    DownstreamAt(groups, j, c);
    assert |groups[i + 1..]| == |groups[j + 1..]|;
  }

  // ---------- Sub-lists of a group ----------

  function Keep(group: seq<Name>, s: set<Name>): seq<Name> {
    if group == [] then []
    else if group[0] in s then [group[0]] + Keep(group[1..], s)
    else Keep(group[1..], s)
  }

  /** `a` is `b` with some members left out, the others in order. */
  ghost predicate SubList(a: seq<Name>, b: seq<Name>) {
    exists s: set<Name> :: a == Keep(b, s)
  }

  lemma {:induction false} KeepMembers(group: seq<Name>, s: set<Name>, x: Name)
    ensures x in Keep(group, s) <==> x in group && x in s
  {
    if group != [] {
      KeepMembers(group[1..], s, x);
      assert x in group <==> x == group[0] || x in group[1..];
    }
  }

  lemma {:induction false} KeepAll(group: seq<Name>, s: set<Name>)
    requires forall x :: x in group ==> x in s
    ensures Keep(group, s) == group
  {
    if group != [] { KeepAll(group[1..], s); }
  }

  lemma {:induction false} RemoveFromKept(group: seq<Name>, s: set<Name>, x: Name)
    requires NoDuplicates(group)
    ensures RemoveFirst(Keep(group, s), x) == Keep(group, s - {x})
  {
    if group != [] {
      RemoveFromKept(group[1..], s, x);
      if group[0] == x {
        assert forall y :: y in group[1..] ==> y != x;
        KeepWithout(group[1..], s, x);
        KeepMembers(group[1..], s, x);
        if x !in s { RemoveAbsent(Keep(group[1..], s), x); }
      }
    }
  }

  lemma {:induction false} KeepWithout(group: seq<Name>, s: set<Name>, x: Name)
    requires x !in group
    ensures Keep(group, s - {x}) == Keep(group, s)
  {
    if group != [] { KeepWithout(group[1..], s, x); }
  }

  lemma {:induction false} RemoveAbsent(group: seq<Name>, x: Name)
    ensures x !in group ==> RemoveFirst(group, x) == group
    ensures x in group ==> |RemoveFirst(group, x)| == |group| - 1
  {
    if group != [] { RemoveAbsent(group[1..], x); }
  }

  // ---------- The shape every reachable list has ----------

  /** Empty, or a non-empty sub-list of one normalised FTC group followed by exactly the groups after it. */
  ghost predicate Shape(all: Groups, pending: Groups) {
    var n := Normalize(all);
    && |pending| <= |n|
    && (pending == [] ||
        var i := |n| - |pending|;
        pending[0] != [] && SubList(pending[0], n[i]) && pending[1..] == n[i + 1..])
  }

  lemma ShapeClean(all: Groups, pending: Groups)
    requires Shape(all, pending)
    ensures Clean(pending)
  {
    NormalizeIdempotent(all);
    if pending != [] {
      forall i | 0 <= i < |pending| ensures pending[i] != [] {
        if i > 0 { assert pending[i] == pending[1..][i - 1]; }
      }
    }
  }

  lemma ResetShape(all: Groups)
    ensures Shape(all, Normalize(all))
  {
    var n := Normalize(all);
    NormalizeIdempotent(all);
    if n != [] {
      var s := set x | x in n[0];
      KeepAll(n[0], s);
      assert n[0] == Keep(n[0], s);
    }
  }

  lemma DownstreamAtLevel(all: Groups, i: nat, c: Name)
    requires Distinct(all) && i < |Normalize(all)| && c in Normalize(all)[i]
    ensures Normalize(Downstream(all, c)) == Normalize(all)[i + 1..]
    ensures NoDuplicates(Normalize(all)[i])
  {
    NormalizeDistinct(all);
    DownstreamAt(Normalize(all), i, c);
    DownstreamOfNormalized(all, c);
  }

  lemma RemovedFromKept(group: seq<Name>, s: set<Name>, c: Name)
    requires NoDuplicates(group)
    ensures SubList(RemoveFirst(Keep(group, s), c), group)
    ensures c !in RemoveFirst(Keep(group, s), c)
    ensures forall d :: d != c && d in Keep(group, s) ==> d in RemoveFirst(Keep(group, s), c)
  {
    RemoveFromKept(group, s, c);
    KeepMembers(group, s - {c}, c);
    forall d | d != c && d in Keep(group, s) ensures d in RemoveFirst(Keep(group, s), c) {
      KeepMembers(group, s, d);
      KeepMembers(group, s - {c}, d);
    }
  }

  /** The head member of a well-shaped list lies in the group at the list's level, so re-arming changes nothing. */
  lemma HeadLevel(all: Groups, pending: Groups, c: Name)
    requires Distinct(all) && Shape(all, pending) && pending != [] && c in pending[0]
    ensures var n := Normalize(all); c in n[|n| - |pending|]
    ensures Normalize(Downstream(all, c)) == pending[1..]
    ensures SubList(RemoveFirst(pending[0], c), Normalize(all)[|Normalize(all)| - |pending|])
    ensures c !in RemoveFirst(pending[0], c)
    ensures forall d :: d != c && d in pending[0] ==> d in RemoveFirst(pending[0], c)
  {
    var n := Normalize(all);
    var i := |n| - |pending|;
    var s: set<Name> :| pending[0] == Keep(n[i], s);
    KeepMembers(n[i], s, c);
    DownstreamAtLevel(all, i, c);
    RemovedFromKept(n[i], s, c);
  }

  /** What an enabled step does to a well-shaped list, whether or not it modified the object. */
  lemma HeadStep(all: Groups, pending: Groups, c: Name, modified: bool)
    requires Distinct(all) && Shape(all, pending) && pending != [] && c in pending[0]
    ensures var head := RemoveFirst(pending[0], c);
            Update(pending, c, modified, all) == if head == [] then pending[1..] else [head] + pending[1..]
  {
    HeadLevel(all, pending, c);
    ShapeClean(all, pending);
    var head := RemoveFirst(pending[0], c);
    var rest := if modified then Downstream(all, c) else pending[1..];
    NormalizeIdempotent(pending[1..]);
    assert ([head] + rest)[1..] == rest;
  }

  /** Reporting a modification sets downstream, which is a no-op while the list is not empty. */
  lemma RearmIsNoOp(all: Groups, pending: Groups, c: Name)
    requires Distinct(all) && Shape(all, pending) && pending != [] && DependenciesFulfilled(pending, c)
    ensures Update(pending, c, true, all) == Update(pending, c, false, all)
  {
    HeadStep(all, pending, c, true);
    HeadStep(all, pending, c, false);
  }

  /** From the empty list, a modification arms exactly the groups after the controller's own. */
  lemma EmptyStep(all: Groups, c: Name, modified: bool)
    ensures Update([], c, modified, all) == if modified then Downstream(Normalize(all), c) else []
  {
    var rest := if modified then Downstream(all, c) else [];
    var head: seq<Name> := RemoveFirst([], c);
    assert head == [];
    assert ([head] + rest)[1..] == rest;
    assert Normalize([head] + rest) == Normalize(rest);
    DownstreamOfNormalized(all, c);
  }

  lemma {:induction false} DownstreamIsSuffix(groups: Groups, c: Name)
    ensures var d := Downstream(groups, c); |d| <= |groups| && d == groups[|groups| - |d|..]
  {
    if groups != [] && c !in groups[0] { DownstreamIsSuffix(groups[1..], c); }
  }

  lemma SuffixShape(all: Groups, k: nat)
    requires k <= |Normalize(all)|
    ensures Shape(all, Normalize(all)[k..])
  {
    var n := Normalize(all);
    NormalizeIdempotent(all);
    if k < |n| {
      var s := set x | x in n[k];
      KeepAll(n[k], s);
      assert n[k] == Keep(n[k], s);
      assert n[k..][1..] == n[k + 1..];
    }
  }

  // ---------- Runs ----------

  /** One atomic step of some controller. `Reset` is the federate controller writing the whole list; an
      `Attempt` is any other controller's pass, which does nothing unless its turn has come and its write was not
      refused by a conflict. */
  datatype Event = Reset | Attempt(controller: Name, modified: bool, committed: bool)

  predicate Takes(pending: Groups, e: Event, c: Name) {
    e.Attempt? && e.controller == c && e.committed && DependenciesFulfilled(pending, c)
  }

  function Next(all: Groups, pending: Groups, e: Event): Groups {
    match e
    case Reset => Normalize(all)
    case Attempt(c, modified, _) => if Takes(pending, e, c) then Update(pending, c, modified, all) else pending
  }

  function Run(all: Groups, pending: Groups, es: seq<Event>): Groups
    decreases |es|
  {
    if es == [] then pending else Run(all, Next(all, pending, es[0]), es[1..])
  }

  lemma NextShape(all: Groups, pending: Groups, e: Event)
    requires Distinct(all) && Shape(all, pending)
    ensures Shape(all, Next(all, pending, e))
  {
    match e
    case Reset => ResetShape(all);
    case Attempt(c, modified, _) =>
      if Takes(pending, e, c) {
        if pending == [] {
          ArmedShape(all, c, modified);
        } else {
          HeadStepShape(all, pending, c, modified);
        }
      }
  }

  lemma ArmedShape(all: Groups, c: Name, modified: bool)
    requires Distinct(all)
    ensures Shape(all, Update([], c, modified, all))
  {
    var n := Normalize(all);
    EmptyStep(all, c, modified);
    DownstreamIsSuffix(n, c);
    if modified { SuffixShape(all, |n| - |Downstream(n, c)|); }
  }

  lemma HeadStepShape(all: Groups, pending: Groups, c: Name, modified: bool)
    requires Distinct(all) && Shape(all, pending) && pending != [] && c in pending[0]
    ensures Shape(all, Update(pending, c, modified, all))
  {
    var n := Normalize(all);
    HeadStep(all, pending, c, modified);
    HeadLevel(all, pending, c);
    if RemoveFirst(pending[0], c) == [] {
      SuffixShape(all, |n| - |pending| + 1);
      assert pending[1..] == n[|n| - |pending| + 1..];
    } else {
      assert ([RemoveFirst(pending[0], c)] + pending[1..])[1..] == pending[1..];
    }
  }

  /** Every list that any run can reach has the shape. */
  lemma {:induction false} ReachableShape(all: Groups, pending: Groups, es: seq<Event>)
    requires Distinct(all) && Shape(all, pending)
    ensures Shape(all, Run(all, pending, es))
    decreases |es|
  {
    if es != [] {
      NextShape(all, pending, es[0]);
      ReachableShape(all, Next(all, pending, es[0]), es[1..]);
    }
  }

  /** A step of a head member removes exactly one pending controller, modified or not. */
  lemma HeadStepShrinks(all: Groups, pending: Groups, c: Name, modified: bool)
    requires Distinct(all) && Shape(all, pending) && pending != [] && c in pending[0]
    ensures |Flatten(Update(pending, c, modified, all))| == |Flatten(pending)| - 1
  {
    HeadStep(all, pending, c, modified);
    RemoveAbsent(pending[0], c);
    var head := RemoveFirst(pending[0], c);
    if head != [] {
      assert ([head] + pending[1..])[1..] == pending[1..];
    }
  }

  lemma {:induction false} RemoveFirstContents(group: seq<Name>, x: Name)
    requires x in group
    ensures multiset(RemoveFirst(group, x)) == multiset(group) - multiset{x}
  {
    if group[0] != x { RemoveFirstContents(group[1..], x); }
    assert group == [group[0]] + group[1..];
  }

  /** A turn: on a list that is not empty the committed attempt of a controller of the first group takes that controller
      out and leaves all others, whether or not it modified the object; every other attempt leaves the list alone. */
  lemma TurnStep(all: Groups, pending: Groups, c: Name, modified: bool)
    requires Distinct(all) && Shape(all, pending) && pending != []
    ensures var next := Next(all, pending, Attempt(c, modified, true));
            if c in pending[0] then multiset(Flatten(next)) == multiset(Flatten(pending)) - multiset{c}
            else next == pending
    ensures Next(all, pending, Attempt(c, modified, false)) == pending
  {
    if c in pending[0] {
      HeadStep(all, pending, c, modified);
      RemovedFromHead(pending, c);
    }
  }

  lemma RemovedFromHead(pending: Groups, c: Name)
    requires pending != [] && c in pending[0]
    ensures var head, rest := RemoveFirst(pending[0], c), pending[1..];
            multiset(Flatten(if head == [] then rest else [head] + rest)) ==
            multiset(Flatten(pending)) - multiset{c}
  {
    var head, rest := RemoveFirst(pending[0], c), pending[1..];
    RemoveFirstContents(pending[0], c);
    FlattenCons(head, rest);
    FlattenCons(pending[0], rest);
    assert pending == [pending[0]] + rest;
  }

  lemma FlattenCons(group: seq<Name>, rest: Groups)
    ensures multiset(Flatten([group] + rest)) == multiset(group) + multiset(Flatten(rest))
  {
    assert ([group] + rest)[1..] == rest;
  }

  /** On the empty list everybody may go: an unmodified object keeps its empty list, and a modification by a controller
      of group `g` is handed to the groups behind it. */
  lemma TurnOnEmpty(all: Groups, c: Name)
    requires Distinct(all)
    ensures Next(all, [], Attempt(c, false, true)) == [] && Next(all, [], Attempt(c, true, false)) == []
    ensures var n := Normalize(all);
            forall g :: 0 <= g < |n| && c in n[g] ==> Next(all, [], Attempt(c, true, true)) == n[g + 1..]
    ensures c !in Flatten(all) ==> Next(all, [], Attempt(c, true, true)) == []
  {
    var n := Normalize(all);
    EmptyStep(all, c, false);
    EmptyStep(all, c, true);
    NormalizeDistinct(all);
    NormalizeIdempotent(all);
    forall g | 0 <= g < |n| && c in n[g] ensures Next(all, [], Attempt(c, true, true)) == n[g + 1..] {
      DownstreamAt(n, g, c);
    }
    if c !in Flatten(all) { NothingDownstream(n, c); }
  }

  lemma {:induction false} NothingDownstream(all: Groups, c: Name)
    requires c !in Flatten(all)
    ensures Downstream(all, c) == []
  {
    if all != [] { NothingDownstream(all[1..], c); }
  }

  /** The named controllers make committed attempts in this order, each modifying the object or not. */
  ghost predicate InTurn(es: seq<Event>, names: seq<Name>) {
    && |es| == |names|
    && forall i :: 0 <= i < |es| ==> es[i].Attempt? && es[i].controller == names[i] && es[i].committed
  }

  lemma FlattenFirst(pending: Groups)
    requires pending != [] && pending[0] != []
    ensures Flatten(pending) != [] && Flatten(pending)[0] == pending[0][0]
    ensures Flatten(pending)[1..] == RemoveFirst(pending[0], pending[0][0]) + Flatten(pending[1..])
  {}

  lemma FlattenHead(head: seq<Name>, rest: Groups)
    ensures Flatten(if head == [] then rest else [head] + rest) == head + Flatten(rest)
  {
    assert ([head] + rest)[1..] == rest;
  }

  /** The step of the controller that is first in the list takes it off the front. */
  lemma FirstsTurn(all: Groups, pending: Groups, e: Event)
    requires Distinct(all) && Shape(all, pending)
    requires Flatten(pending) != [] && e.Attempt? && e.committed && e.controller == Flatten(pending)[0]
    ensures Flatten(Next(all, pending, e)) == Flatten(pending)[1..]
  {
    ShapeClean(all, pending);
    FlattenFirst(pending);
    HeadStep(all, pending, pending[0][0], e.modified);
    FlattenHead(RemoveFirst(pending[0], pending[0][0]), pending[1..]);
  }

  /** Nobody is stuck: when the pending controllers try in the order of the list, all of them get their turn and the
      list is empty. */
  lemma {:induction false} InTurnDrains(all: Groups, pending: Groups, es: seq<Event>)
    requires Distinct(all) && Shape(all, pending) && InTurn(es, Flatten(pending))
    ensures Run(all, pending, es) == []
    decreases |es|
  {
    ShapeClean(all, pending);
    if pending != [] {
      FirstsTurn(all, pending, es[0]);
      NextShape(all, pending, es[0]);
      InTurnDrains(all, Next(all, pending, es[0]), es[1..]);
    } else {
      assert es == [];
    }
  }

  /** After a reset every controller of the FTC gets its turn, in the order of the FTC. */
  lemma ResetIsWorkedThrough(all: Groups, pending: Groups, es: seq<Event>)
    requires Distinct(all) && InTurn(es, Flatten(all))
    ensures Run(all, pending, [Reset] + es) == []
  {
    NormalizeIdempotent(all);
    ResetShape(all);
    InTurnDrains(all, Normalize(all), es);
    assert ([Reset] + es)[1..] == es;
  }

  /** Every event is a head member's committed step on a non-empty list. */
  ghost predicate OnlyHeadSteps(all: Groups, pending: Groups, es: seq<Event>)
    decreases |es|
  {
    es == [] ||
    (pending != [] && es[0].Attempt? && Takes(pending, es[0], es[0].controller) &&
     OnlyHeadSteps(all, Next(all, pending, es[0]), es[1..]))
  }

  /** A run of head steps empties the list exactly when it is as long as the list has controllers. */
  lemma {:induction false} DrainLength(all: Groups, pending: Groups, es: seq<Event>)
    requires Distinct(all) && Shape(all, pending) && OnlyHeadSteps(all, pending, es)
    ensures |Flatten(Run(all, pending, es))| == |Flatten(pending)| - |es|
    ensures Run(all, pending, es) == [] <==> |es| == |Flatten(pending)|
    decreases |es|
  {
    if es != [] {
      NextShape(all, pending, es[0]);
      HeadStepShrinks(all, pending, es[0].controller, es[0].modified);
      DrainLength(all, Next(all, pending, es[0]), es[1..]);
    } else {
      ShapeClean(all, pending);
    }
  }

  /** A reset list drains in exactly as many head steps as the FTC names controllers. */
  lemma ResetDrains(all: Groups, es: seq<Event>)
    requires Distinct(all) && OnlyHeadSteps(all, Normalize(all), es)
    ensures |es| <= |Flatten(all)|
    ensures Run(all, Normalize(all), es) == [] <==> |es| == |Flatten(all)|
  {
    ResetShape(all);
    DrainLength(all, Normalize(all), es);
    NormalizeIdempotent(all);
  }

  // ---------- A modification obliges every downstream controller ----------

  /** `chain` names controllers of strictly later and later groups of `n`, none before group `from`. */
  ghost predicate Ascending(n: Groups, chain: seq<Name>, from: nat) {
    chain == [] || exists g: nat :: from <= g < |n| && chain[0] in n[g] && Ascending(n, chain[1..], g + 1)
  }

  /** During `es` the controllers of `chain` take committed steps of their own, one after the other. */
  ghost predicate StepInOrder(all: Groups, pending: Groups, es: seq<Event>, chain: seq<Name>)
    decreases |es|
  {
    chain == [] ||
    (es != [] &&
     var next := Next(all, pending, es[0]);
     (Takes(pending, es[0], chain[0]) && StepInOrder(all, next, es[1..], chain[1..])) ||
     StepInOrder(all, next, es[1..], chain))
  }

  /** Every member of `chain` is still pending. */
  ghost predicate Awaits(all: Groups, pending: Groups, chain: seq<Name>) {
    var n := Normalize(all);
    && |pending| <= |n|
    && (chain == [] ||
        (pending != [] && var i := |n| - |pending|;
         (chain[0] in pending[0] && Ascending(n, chain[1..], i + 1)) || Ascending(n, chain, i + 1)))
  }

  lemma {:induction false} AscendingFromEarlier(n: Groups, chain: seq<Name>, from: nat, from': nat)
    requires Ascending(n, chain, from) && from' <= from
    ensures Ascending(n, chain, from')
  {}

  lemma AwaitsSuffix(all: Groups, k: nat, chain: seq<Name>)
    requires k <= |Normalize(all)| && Ascending(Normalize(all), chain, k)
    ensures Awaits(all, Normalize(all)[k..], chain)
  {
    var n := Normalize(all);
    if chain != [] {
      var g: nat :| k <= g < |n| && chain[0] in n[g] && Ascending(n, chain[1..], g + 1);
      if g > k {
        assert Ascending(n, chain, k + 1);
      }
    }
  }

  /** No step lets a pending chain member be forgotten: it stays pending, or it is the one that stepped. */
  lemma AwaitsStep(all: Groups, pending: Groups, e: Event, chain: seq<Name>)
    requires Distinct(all) && Shape(all, pending) && Awaits(all, pending, chain) && chain != []
    ensures var next := Next(all, pending, e);
            Awaits(all, next, chain) || (Takes(pending, e, chain[0]) && Awaits(all, next, chain[1..]))
  {
    var n := Normalize(all);
    var i := |n| - |pending|;
    match e
    case Reset =>
      assert n[0..] == n;
      if chain[0] in pending[0] && Ascending(n, chain[1..], i + 1) {
        HeadLevel(all, pending, chain[0]);
        assert Ascending(n, chain, i);
        AscendingFromEarlier(n, chain, i, 0);
      } else {
        AscendingFromEarlier(n, chain, i + 1, 0);
      }
      AwaitsSuffix(all, 0, chain);
    case Attempt(c, modified, _) =>
      if Takes(pending, e, c) {
        HeadStep(all, pending, c, modified);
        HeadLevel(all, pending, c);
        var head := RemoveFirst(pending[0], c);
        if head == [] {
          assert pending[1..] == n[i + 1..];
          if Ascending(n, chain, i + 1) {
            AwaitsSuffix(all, i + 1, chain);
          } else {
            AwaitsSuffix(all, i + 1, chain[1..]);
          }
        } else if chain[0] == c && !Ascending(n, chain, i + 1) {
          assert Awaits(all, [head] + pending[1..], chain[1..]);
        }
      }
  }

  lemma {:induction false} AwaitedStep(all: Groups, pending: Groups, es: seq<Event>, chain: seq<Name>)
    requires Distinct(all) && Shape(all, pending) && Awaits(all, pending, chain)
    requires Run(all, pending, es) == []
    ensures StepInOrder(all, pending, es, chain)
    decreases |es|
  {
    if es != [] && chain != [] {
      var next := Next(all, pending, es[0]);
      NextShape(all, pending, es[0]);
      AwaitsStep(all, pending, es[0], chain);
      if Awaits(all, next, chain) {
        AwaitedStep(all, next, es[1..], chain);
      } else {
        AwaitedStep(all, next, es[1..], chain[1..]);
      }
    }
  }

  /** After `c` commits a modification, the list can be empty again only once, for any choice of controllers from
      later and later groups after `c`'s own, those controllers have stepped in that order. Downstream work is
      never skipped and never taken out of turn, whatever resets, conflicts and other steps come between. */
  lemma ModificationObligesDownstream(all: Groups, pending: Groups, c: Name, g: nat, es: seq<Event>, chain: seq<Name>)
    requires Distinct(all) && Shape(all, pending)
    requires g < |Normalize(all)| && c in Normalize(all)[g]
    requires Takes(pending, Attempt(c, true, true), c)
    requires Ascending(Normalize(all), chain, g + 1)
    requires Run(all, Next(all, pending, Attempt(c, true, true)), es) == []
    ensures StepInOrder(all, Next(all, pending, Attempt(c, true, true)), es, chain)
  {
    var n := Normalize(all);
    var e := Attempt(c, true, true);
    var next := Next(all, pending, e);
    NormalizeDistinct(all);
    NextShape(all, pending, e);
    if pending == [] {
      EmptyStep(all, c, true);
      DownstreamAt(n, g, c);
      AwaitsSuffix(all, g + 1, chain);
    } else {
      HeadStep(all, pending, c, true);
      HeadLevel(all, pending, c);
      SameGroup(n, g, |n| - |pending|, c);
      if RemoveFirst(pending[0], c) == [] { AwaitsSuffix(all, g + 1, chain); }
    }
    AwaitedStep(all, next, es, chain);
  }

  /** The same for a reset: a list the federate controller has written is empty again only after every chain of
      controllers from successive groups has stepped in order. */
  lemma ResetObligesEveryController(all: Groups, es: seq<Event>, chain: seq<Name>)
    requires Distinct(all) && Ascending(Normalize(all), chain, 0)
    requires Run(all, Normalize(all), es) == []
    ensures StepInOrder(all, Normalize(all), es, chain)
  {
    ResetShape(all);
    assert Normalize(all)[0..] == Normalize(all);
    AwaitsSuffix(all, 0, chain);
    AwaitedStep(all, Normalize(all), es, chain);
  }

  // ---------- The empty list says exactly that ----------

  /** Step `j` of the run obliges the controllers of `chain`: it is a reset and they are from later and later groups, or
      it is a committed modification and they are from later and later groups after the modifying controller's. */
  ghost predicate Obliges(all: Groups, pending: Groups, es: seq<Event>, j: nat, chain: seq<Name>)
    requires j < |es|
  {
    match es[j]
    case Reset => Ascending(Normalize(all), chain, 0)
    case Attempt(c, modified, _) =>
      && modified && Takes(Run(all, pending, es[..j]), es[j], c)
      && exists g: nat :: g < |Normalize(all)| && c in Normalize(all)[g] && Ascending(Normalize(all), chain, g + 1)
  }

  /** Since step `j` the controllers of `chain` have stepped, one after the other. */
  ghost predicate Stepped(all: Groups, pending: Groups, es: seq<Event>, j: nat, chain: seq<Name>)
    requires j < |es|
  {
    StepInOrder(all, Next(all, Run(all, pending, es[..j]), es[j]), es[j + 1..], chain)
  }

  /** Every obligation of the run has been met. */
  ghost predicate SeenThrough(all: Groups, pending: Groups, es: seq<Event>) {
    forall j: nat, chain: seq<Name> :: j < |es| && Obliges(all, pending, es, j, chain) ==>
      Stepped(all, pending, es, j, chain)
  }

  lemma {:induction false} RunSplit(all: Groups, pending: Groups, a: seq<Event>, b: seq<Event>)
    ensures Run(all, pending, a + b) == Run(all, Run(all, pending, a), b)
    decreases |a|
  {
    if a == [] {
      assert a + b == b;
    } else {
      assert (a + b)[1..] == a[1..] + b;
      RunSplit(all, Next(all, pending, a[0]), a[1..], b);
    }
  }

  /** Where a run ends empty, so does what follows any of its steps. */
  lemma RunAfter(all: Groups, pending: Groups, es: seq<Event>, j: nat)
    requires j < |es|
    ensures Run(all, Next(all, Run(all, pending, es[..j]), es[j]), es[j + 1..]) == Run(all, pending, es)
  {
    assert es == es[..j] + es[j..];
    RunSplit(all, pending, es[..j], es[j..]);
    assert es[j..][0] == es[j] && es[j..][1..] == es[j + 1..];
  }

  /** At the end of a run that ends with the empty list everything has been seen through. */
  lemma EmptyMeansSeenThrough(all: Groups, pending: Groups, es: seq<Event>)
    requires Distinct(all) && Shape(all, pending) && Run(all, pending, es) == []
    ensures SeenThrough(all, pending, es)
  {
    forall j: nat, chain: seq<Name> | j < |es| && Obliges(all, pending, es, j, chain)
      ensures Stepped(all, pending, es, j, chain)
    {
      RunAfter(all, pending, es, j);
      ReachableShape(all, pending, es[..j]);
      match es[j]
      case Reset => ResetObligesEveryController(all, es[j + 1..], chain);
      case Attempt(c, modified, committed) =>
        var g: nat :| g < |Normalize(all)| && c in Normalize(all)[g] && Ascending(Normalize(all), chain, g + 1);
        ModificationObligesDownstream(all, Run(all, pending, es[..j]), c, g, es[j + 1..], chain);
    }
  }

  /** `x` does not step during `es`. */
  ghost predicate NoStepOf(all: Groups, pending: Groups, es: seq<Event>, x: Name)
    decreases |es|
  {
    es != [] ==> !Takes(pending, es[0], x) && NoStepOf(all, Next(all, pending, es[0]), es[1..], x)
  }

  lemma {:induction false} NoStepMeansNotStepped(all: Groups, pending: Groups, es: seq<Event>, x: Name)
    requires NoStepOf(all, pending, es, x)
    ensures !StepInOrder(all, pending, es, [x])
    decreases |es|
  {
    if es != [] { NoStepMeansNotStepped(all, Next(all, pending, es[0]), es[1..], x); }
  }

  lemma {:induction false} NoStepSnoc(all: Groups, pending: Groups, es: seq<Event>, e: Event, x: Name)
    requires NoStepOf(all, pending, es, x) && !Takes(Run(all, pending, es), e, x)
    ensures NoStepOf(all, pending, es + [e], x)
    decreases |es|
  {
    if es != [] {
      assert (es + [e])[1..] == es[1..] + [e];
      NoStepSnoc(all, Next(all, pending, es[0]), es[1..], e, x);
    } else {
      assert [e][1..] == [];
    }
  }

  lemma {:induction false} GroupOf(groups: Groups, x: Name) returns (g: nat)
    requires x in Flatten(groups)
    ensures g < |groups| && x in groups[g]
  {
    if x in groups[0] {
      g := 0;
    } else {
      g := GroupOf(groups[1..], x);
      g := g + 1;
    }
  }

  lemma {:induction false} DownstreamIsLater(groups: Groups, c: Name, x: Name) returns (g: nat, h: nat)
    requires x in Flatten(Downstream(groups, c))
    ensures g < h < |groups| && c in groups[g] && x in groups[h]
  {
    if c in groups[0] {
      h := GroupOf(groups[1..], x);
      g, h := 0, h + 1;
    } else {
      g, h := DownstreamIsLater(groups[1..], c, x);
      g, h := g + 1, h + 1;
    }
  }

  /** `x` is owed its step since step `j`. */
  ghost predicate Owed(all: Groups, pending: Groups, es: seq<Event>, j: nat, x: Name) {
    && j < |es| && Obliges(all, pending, es, j, [x])
    && NoStepOf(all, Next(all, Run(all, pending, es[..j]), es[j]), es[j + 1..], x)
  }

  lemma OwedLater(all: Groups, pending: Groups, es: seq<Event>, e: Event, j: nat, x: Name)
    requires Owed(all, pending, es, j, x) && !Takes(Run(all, pending, es), e, x)
    ensures Owed(all, pending, es + [e], j, x)
  {
    var more := es + [e];
    assert more[..j] == es[..j] && more[j] == es[j] && more[j + 1..] == es[j + 1..] + [e];
    RunAfter(all, pending, es, j);
    NoStepSnoc(all, Next(all, Run(all, pending, es[..j]), es[j]), es[j + 1..], e, x);
  }

  /** A step that arms `x` is what `x` is owed its step since. */
  lemma OwedNow(all: Groups, es: seq<Event>, e: Event, x: Name)
    requires x in Flatten(Next(all, Run(all, [], es), e))
    requires e.Reset? || (Run(all, [], es) == [] && Takes([], e, e.controller))
    ensures Owed(all, [], es + [e], |es|, x)
  {
    var more, n := es + [e], Normalize(all);
    assert more[..|es|] == es && more[|es|] == e && more[|es| + 1..] == [];
    assert [x][1..] == [];
    if e.Reset? {
      var h := GroupOf(n, x);
      assert Ascending(n, [x], 0);
    } else {
      EmptyStep(all, e.controller, e.modified);
      assert e.modified;
      var g, h := DownstreamIsLater(n, e.controller, x);
      assert Ascending(n, [x], g + 1);
    }
  }

  /** Whoever is pending has been armed by some step and has not stepped since. */
  lemma {:induction false} PendingIsOwed(all: Groups, es: seq<Event>, x: Name) returns (j: nat)
    requires Distinct(all) && x in Flatten(Run(all, [], es))
    ensures Owed(all, [], es, j, x)
    decreases |es|
  {
    var n := |es| - 1;
    var init, e := es[..n], es[n];
    var before := Run(all, [], init);
    assert es == init + [e];
    RunSplit(all, [], init, [e]);
    assert Run(all, before, [e]) == Next(all, before, e) by { assert [e][1..] == []; }
    SuffixShape(all, |Normalize(all)|);
    assert Normalize(all)[|Normalize(all)|..] == [];
    ReachableShape(all, [], init);
    if e.Reset? || (before == [] && Takes(before, e, e.controller)) {
      OwedNow(all, init, e, x);
      j := n;
    } else {
      StillPending(all, before, e, x);
      j := PendingIsOwed(all, init, x);
      OwedLater(all, [], init, e, j, x);
    }
  }

  /** Apart from resets and steps on the empty list no step adds anybody, and who is left after it did not step in
      it. */
  lemma StillPending(all: Groups, pending: Groups, e: Event, x: Name)
    requires Distinct(all) && Shape(all, pending) && x in Flatten(Next(all, pending, e))
    requires e.Attempt? && (pending != [] || !Takes(pending, e, e.controller))
    ensures x in Flatten(pending) && !Takes(pending, e, x)
  {
    var c := e.controller;
    if Takes(pending, e, c) {
      HeadStep(all, pending, c, e.modified);
      HeadLevel(all, pending, c);
      var head, rest := RemoveFirst(pending[0], c), pending[1..];
      assert ([head] + rest)[1..] == rest;
      if x in head {
        RemovedStays(pending[0], c, x);
      } else {
        assert x in Flatten(rest);
        NotInLaterGroups(all, pending, c);
      }
    }
  }

  lemma {:induction false} RemovedStays(group: seq<Name>, c: Name, x: Name)
    requires x in RemoveFirst(group, c)
    ensures x in group
  {
    if group != [] && group[0] != c && x != group[0] { RemovedStays(group[1..], c, x); }
  }

  lemma NotInLaterGroups(all: Groups, pending: Groups, c: Name)
    requires Distinct(all) && Shape(all, pending) && pending != [] && c in pending[0]
    ensures c !in Flatten(pending[1..])
  {
    var n := Normalize(all);
    var i, later := |n| - |pending|, pending[1..];
    assert c in n[i] by { HeadLevel(all, pending, c); }
    NormalizeDistinct(all);
    if c in Flatten(later) {
      var h := GroupOf(later, c);
      assert later[h] == n[i + 1..][h] == n[i + 1 + h];
      SameGroup(n, i, i + 1 + h, c);
    }
  }

  /** From the empty list on, the list is empty again exactly when everything has been seen through: an empty list never
      hides an obligation, and a list that is not empty always stands for one. */
  lemma EmptyIffSeenThrough(all: Groups, es: seq<Event>)
    requires Distinct(all)
    ensures Run(all, [], es) == [] <==> SeenThrough(all, [], es)
  {
    SuffixShape(all, |Normalize(all)|);
    assert Normalize(all)[|Normalize(all)|..] == [];
    ReachableShape(all, [], es);
    var pending := Run(all, [], es);
    if pending == [] {
      EmptyMeansSeenThrough(all, [], es);
    } else {
      ShapeClean(all, pending);
      var x := pending[0][0];
      assert x in Flatten(pending);
      var j := PendingIsOwed(all, es, x);
      NoStepMeansNotStepped(all, Next(all, Run(all, [], es[..j]), es[j]), es[j + 1..], x);
      assert Obliges(all, [], es, j, [x]) && !Stepped(all, [], es, j, [x]);
    }
  }
}
