/** The pending-controllers pipeline and the sync controller together: which controllers the parts of what is sent to a
    member cluster have been through (`pkg/util/pendingcontrollers/pendingcontrollers.go`,
    `pkg/controllers/sync/controller.go` and `pkg/controllers/sync/resource.go`). */
module PropagationOrder {
  import opened Wrappers
  import PC = PendingControllers
  import Sync = SyncController

  /** A step on the pending list, or a pass of the sync controller over `before`, which is the object as the first
      `read` steps of the run left it: the controller's cache may lag. If the pass refreshes the object, it gets it as
      the first `refetched` steps left it. */
  datatype Event =
    | Step(e: PC.Event)
    | Pass(read: nat, refetched: nat, before: Sync.FedObject, now: Sync.FedObject, w: Sync.World, ops: seq<Sync.Op>)

  function Steps(es: seq<Event>): seq<PC.Event> {
    if es == [] then []
    else
      var n := |es| - 1;
      Steps(es[..n]) + if es[n].Step? then [es[n].e] else []
  }

  /** `o` is a version of the object that the first `n` steps of the run have left. */
  ghost predicate IsVersion(all: PC.Groups, pending: PC.Groups, steps: seq<PC.Event>, n: nat, o: Sync.FedObject) {
    n <= |steps| && PC.Decode(o.pending) == Ok(PC.Run(all, pending, steps[..n]))
  }

  /** Every pass reads versions of the object that have existed, the refreshed one no older than the first, and does
      what the sync controller does. */
  ghost predicate Joint(all: PC.Groups, pending: PC.Groups, es: seq<Event>) {
    forall i :: 0 <= i < |es| && es[i].Pass? ==>
      && IsVersion(all, pending, Steps(es[..i]), es[i].read, es[i].before)
      && (Sync.Refreshed(es[i].before, es[i].w) ==>
            es[i].read <= es[i].refetched
            && IsVersion(all, pending, Steps(es[..i]), es[i].refetched, es[i].w.statusWrite.latest))
      && Sync.Obeys(es[i].before, es[i].now, es[i].w, es[i].ops)
  }

  predicate Propagates(op: Sync.Op) {
    op.Create? || op.Update?
  }

  /** Pass `i` sends a Create or an Update. */
  ghost predicate Sends(es: seq<Event>, i: nat) {
    i < |es| && es[i].Pass? && exists op :: op in es[i].ops && Propagates(op)
  }

  /** The number of steps that have gone into the object whose overrides the pass sends. */
  function OverridesOf(e: Event): nat
    requires e.Pass?
  {
    if Sync.Refreshed(e.before, e.w) then e.refetched else e.read
  }

  /** Nobody had become pending again when the pass wrote its records. */
  predicate StillSettled(e: Event)
    requires e.Pass?
  {
    || !Sync.NeedsRecord(e.before, e.w)
    || !e.w.statusWrite.StatusWrittenAfterConflict?
    || Sync.Settled(e.w.statusWrite.latest)
  }

  lemma SendingPass(all: PC.Groups, pending: PC.Groups, es: seq<Event>, i: nat)
    requires Joint(all, pending, es) && Sends(es, i)
    ensures es[i].read <= |Steps(es[..i])| && PC.Run(all, pending, Steps(es[..i])[..es[i].read]) == []
    ensures OverridesOf(es[i]) <= |Steps(es[..i])|
    ensures PC.Run(all, pending, Steps(es[..i])[..OverridesOf(es[i])]) == [] <==> StillSettled(es[i])
    ensures Sync.Settled(es[i].now) <==> StillSettled(es[i])
  {
    var e := es[i];
    var op :| op in e.ops && Propagates(op);
    assert Sync.MayPropagate(e.before, e.now, e.w, op.cluster);
    Sync.HeldIsSettledIff(e.before, e.w);
    assert e.now.pending == Sync.Held(e.before, e.w).pending;
  }

  /** The template and the placement that are sent have been seen through: whatever the version they are from has been
      obliged to by resets and modifications has been done. */
  lemma TemplateSeenThrough(all: PC.Groups, pending: PC.Groups, es: seq<Event>, i: nat)
    requires PC.Distinct(all) && PC.Shape(all, pending) && Joint(all, pending, es) && Sends(es, i)
    ensures es[i].read <= |Steps(es[..i])| && PC.SeenThrough(all, pending, Steps(es[..i])[..es[i].read])
  {
    SendingPass(all, pending, es, i);
    PC.EmptyMeansSeenThrough(all, pending, Steps(es[..i])[..es[i].read]);
  }

  /** The overrides that are sent have been seen through exactly when the status write met no conflict, was not needed,
      or met an object on which nobody was pending. */
  lemma OverridesSeenThroughIff(all: PC.Groups, es: seq<Event>, i: nat)
    requires PC.Distinct(all) && Joint(all, [], es) && Sends(es, i)
    ensures OverridesOf(es[i]) <= |Steps(es[..i])|
    ensures PC.SeenThrough(all, [], Steps(es[..i])[..OverridesOf(es[i])]) <==> StillSettled(es[i])
  {
    SendingPass(all, [], es, i);
    PC.EmptyIffSeenThrough(all, Steps(es[..i])[..OverridesOf(es[i])]);
  }

  /** A Create or Update acts on a version of the object in which every modification has been seen through: for each
      modification committed before that version, and each choice of controllers from later and later groups after the
      modifying one, those have taken their steps in that order since. Version `n` may be the one of the template, or,
      while nobody had become pending again, the one of the overrides. */
  lemma PropagationFollowsDownstream(all: PC.Groups, pending: PC.Groups, es: seq<Event>, i: nat, n: nat, j: nat,
                                     c: PC.Name, g: nat, chain: seq<PC.Name>)
    requires PC.Distinct(all) && PC.Shape(all, pending) && Joint(all, pending, es) && Sends(es, i)
    requires n == es[i].read || (n == OverridesOf(es[i]) && StillSettled(es[i]))
    requires j < n <= |Steps(es[..i])|
    requires var steps := Steps(es[..i]);
             steps[j] == PC.Attempt(c, true, true) && PC.Takes(PC.Run(all, pending, steps[..j]), steps[j], c)
    requires g < |PC.Normalize(all)| && c in PC.Normalize(all)[g] && PC.Ascending(PC.Normalize(all), chain, g + 1)
    ensures var steps := Steps(es[..i]);
            PC.StepInOrder(all, PC.Next(all, PC.Run(all, pending, steps[..j]), steps[j]), steps[j + 1..n], chain)
  {
    var steps := Steps(es[..i]);
    var version := steps[..n];
    SendingPass(all, pending, es, i);
    PC.EmptyMeansSeenThrough(all, pending, version);
    assert version[..j] == steps[..j] && version[j] == steps[j] && version[j + 1..] == steps[j + 1..n];
    assert PC.Obliges(all, pending, version, j, chain);
    assert PC.Stepped(all, pending, version, j, chain);
  }

  /** The same after the federate controller has written the object: every controller of the type has had its turn,
      group after group. */
  lemma PropagationFollowsReset(all: PC.Groups, pending: PC.Groups, es: seq<Event>, i: nat, n: nat, j: nat,
                                chain: seq<PC.Name>)
    requires PC.Distinct(all) && PC.Shape(all, pending) && Joint(all, pending, es) && Sends(es, i)
    requires n == es[i].read || (n == OverridesOf(es[i]) && StillSettled(es[i]))
    requires j < n <= |Steps(es[..i])|
    requires Steps(es[..i])[j] == PC.Reset && PC.Ascending(PC.Normalize(all), chain, 0)
    ensures PC.StepInOrder(all, PC.Normalize(all), Steps(es[..i])[j + 1..n], chain)
  {
    var steps := Steps(es[..i]);
    var version := steps[..n];
    SendingPass(all, pending, es, i);
    PC.EmptyMeansSeenThrough(all, pending, version);
    assert version[..j] == steps[..j] && version[j] == steps[j] && version[j + 1..] == steps[j + 1..n];
    assert PC.Obliges(all, pending, version, j, chain);
    assert PC.Stepped(all, pending, version, j, chain);
  }

  /** That pass in a run: `up` has modified the object, and before `down` has had its turn the pass refreshes it. */
  ghost function ConflictRun(up: PC.Name, down: PC.Name, c: string): seq<Event> {
    var w := Sync.MeetsConflict(c, down);
    var now := w.statusWrite.latest.(recorded := [Sync.PropagationStatus(c, Sync.PendingCreate)]);
    [Step(PC.Attempt(up, true, true)), Pass(0, 1, Sync.NewlyPlaced(c), now, w, [Sync.Create(c)])]
  }

  lemma ConflictPassObeys(up: PC.Name, down: PC.Name, c: string)
    ensures var e := ConflictRun(up, down, c)[1];
            Sync.Obeys(e.before, e.now, e.w, e.ops) && Sync.Refreshed(e.before, e.w) && !StillSettled(e)
  {
    var e := ConflictRun(up, down, c)[1];
    Sync.ConflictSendsPendingOverrides(c, down);
    assert e.now.recorded[0].cluster == c;
    assert Sync.MayPropagate(e.before, e.now, e.w, c);
  }

  lemma ConflictRunIsJoint(up: PC.Name, down: PC.Name, c: string)
    requires up != down
    ensures Joint([[up], [down]], [], ConflictRun(up, down, c)) && Sends(ConflictRun(up, down, c), 1)
  {
    var all, es, step := [[up], [down]], ConflictRun(up, down, c), PC.Attempt(up, true, true);
    ConflictPassObeys(up, down, c);
    OneStepArms(up, down);
    assert es[..1] == [Step(step)] && [Step(step)][..0] == [];
    assert Steps(es[..1]) == [step] && [step][..0] == [] && [step][..1] == [step];
    assert IsVersion(all, [], [step], 0, es[1].before);
    assert PC.Decode(es[1].w.statusWrite.latest.pending) == Ok(PC.Normalize([[down]]));
    assert IsVersion(all, [], [step], 1, es[1].w.statusWrite.latest);
    assert es[1].ops[0] == Sync.Create(c);
  }

  /** So `c` gets its object with overrides that `up` may have changed and `down` has not seen. */
  lemma ConflictOutrunsDownstream(up: PC.Name, down: PC.Name, c: string)
    requires up != down
    ensures var all, es := [[up], [down]], ConflictRun(up, down, c);
            && PC.Distinct(all) && Joint(all, [], es) && Sends(es, 1) && OverridesOf(es[1]) <= |Steps(es[..1])|
            && !PC.SeenThrough(all, [], Steps(es[..1])[..OverridesOf(es[1])])
  {
    ConflictRunIsJoint(up, down, c);
    ConflictPassObeys(up, down, c);
    OneStepArms(up, down);
    OverridesSeenThroughIff([[up], [down]], ConflictRun(up, down, c), 1);
  }

  lemma OneStepArms(up: PC.Name, down: PC.Name)
    requires up != down
    ensures PC.Distinct([[up], [down]])
    ensures PC.Run([[up], [down]], [], [PC.Attempt(up, true, true)]) == [[down]] == PC.Normalize([[down]])
  {
    var all, step := [[up], [down]], PC.Attempt(up, true, true);
    assert all[1..] == [[down]] && [[down]][1..] == [];
    assert PC.Flatten([[down]]) == [down];
    PC.EmptyStep(all, up, true);
    assert PC.Normalize([[down]]) == [[down]];
    assert PC.Normalize(all) == [[up]] + PC.Normalize(all[1..]);
    assert PC.Normalize(all) == all;
    assert PC.Downstream(all, up) == [[down]];
    assert [step][1..] == [];
  }
}
