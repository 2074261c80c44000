/** Propagation to member clusters and its undoing (`pkg/controllers/sync/controller.go`): one pass of the sync
    controller over one federated object, with the dispatcher as an operation log. */
module SyncController {
  import opened Wrappers
  import PendingControllers

  // ---------- What a pass reads ----------

  datatype Cluster = Cluster(ready: bool, terminating: bool, cascadingDelete: bool, hasFinalizer: bool)

  datatype ClusterObject = ClusterObject(terminating: bool, derivedService: bool, orphan: bool)

  /** The outcome of looking the target object up in a cluster's informer cache. */
  datatype Lookup = Failed | NotFound | Found(obj: ClusterObject)

  datatype StatusType = PendingCreate | OtherStatus

  datatype PropagationStatus = PropagationStatus(cluster: string, status: StatusType)

  datatype FedObject = FedObject(
    terminating: bool,
    pending: PendingControllers.Annotation,
    centralizedHPA: Result<bool>,
    hasSyncFinalizer: bool,
    dryRun: bool,
    derivedService: bool,
    placement: set<string>,
    recorded: seq<PropagationStatus>)

  datatype Write = Written | WriteConflict | WriteError

  /** The status write is retried; a conflict makes it start again from the object as the API server has it. */
  datatype StatusWrite = StatusWritten | StatusWrittenAfterConflict(latest: FedObject) | StatusNotWritten

  /** Everything outside the controller that one pass meets. */
  datatype World = World(
    joined: Result<map<string, Cluster>>,       // first listing of the joined clusters
    joinedLater: Result<map<string, Cluster>>,  // the listing made again before the live check
    lookup: string -> Lookup,
    finalizerWrite: Write,
    statusWrite: StatusWrite,
    dispatchOk: bool,
    timeout: bool,
    reported: bool,                             // the status collected from the dispatcher could be written
    liveCheck: string -> bool)                  // gone from the cluster, or no longer labelled as managed

  datatype Op =
    | Create(cluster: string) | Update(cluster: string) | Delete(cluster: string) | RemoveManagedLabel(cluster: string)
    | CheckRemovedOrUnlabeled(cluster: string)
    | Record(cluster: string, status: RecordedStatus)

  datatype RecordedStatus =
    | ClusterNotReady | CachedRetrievalFailed | WaitingForCascadingDeletion | WaitingForRemoval | ClusterTerminating
    | FinalizerCheckFailed

  datatype Status = AllOK | Conflict | Error | Requeue

  function RecordedNames(recorded: seq<PropagationStatus>): set<string> {
    set i | 0 <= i < |recorded| :: recorded[i].cluster
  }

  /** The object found, unless it belongs to the other side of a derived service. */
  predicate HasObject(o: FedObject, l: Lookup) {
    l.Found? && l.obj.derivedService == o.derivedService
  }

  // ---------- The per-cluster decision table ----------

  function Decide(o: FedObject, selected: bool, name: string, c: Cluster, l: Lookup): (op: Option<Op>)
    ensures op == Some(Create(name)) <==>
            selected && c.ready && !c.terminating && c.hasFinalizer && !l.Failed? && !HasObject(o, l)
    ensures op == Some(Update(name)) <==>
            selected && c.ready && !c.terminating && c.hasFinalizer && HasObject(o, l)
    ensures op == Some(Delete(name)) <==>
            !selected && c.ready && !c.terminating && HasObject(o, l) && !l.obj.terminating
    ensures op.Some? ==> op.value.cluster == name && !op.value.RemoveManagedLabel? && !op.value.CheckRemovedOrUnlabeled?
    ensures op == Some(Record(name, FinalizerCheckFailed)) <==>
            selected && c.ready && !c.terminating && !c.hasFinalizer && !l.Failed?
    ensures op == Some(Record(name, ClusterTerminating)) <==>
            selected && c.ready && c.terminating && !c.cascadingDelete && !l.Failed?
    ensures op == Some(Record(name, ClusterNotReady)) <==> selected && !c.ready
    ensures op == Some(Record(name, CachedRetrievalFailed)) <==> c.ready && l.Failed?
    ensures op == Some(Record(name, WaitingForCascadingDeletion)) <==>
            c.ready && c.terminating && c.cascadingDelete && HasObject(o, l) && !l.obj.terminating
    ensures op == Some(Record(name, WaitingForRemoval)) <==>
            !selected && c.ready && !(c.terminating && c.cascadingDelete) && HasObject(o, l) && l.obj.terminating
  {
    if !c.ready then
      if selected then Some(Record(name, ClusterNotReady)) else None
    else if l.Failed? then Some(Record(name, CachedRetrievalFailed))
    else if c.terminating && c.cascadingDelete then
      if HasObject(o, l) && !l.obj.terminating then Some(Record(name, WaitingForCascadingDeletion)) else None
    else if !selected then
      if !HasObject(o, l) then None
      else if l.obj.terminating then Some(Record(name, WaitingForRemoval))
      else if c.terminating && !c.cascadingDelete then None
      else Some(Delete(name))
    else if c.terminating then Some(Record(name, ClusterTerminating))
    else if !c.hasFinalizer then Some(Record(name, FinalizerCheckFailed))
    else if !HasObject(o, l) then Some(Create(name))
    else Some(Update(name))
  }

  function OpsFor(o: FedObject, selected: set<string>, names: seq<string>, joined: map<string, Cluster>,
                  lookup: string -> Lookup): seq<Op>
    requires forall n :: n in names ==> n in joined
  {
    if names == [] then []
    else
      var n := names[|names| - 1];
      var op := Decide(o, n in selected, n, joined[n], lookup(n));
      OpsFor(o, selected, names[..|names| - 1], joined, lookup) + if op.Some? then [op.value] else []
  }

  lemma {:induction false} OpsForMember(o: FedObject, selected: set<string>, names: seq<string>,
                                        joined: map<string, Cluster>, lookup: string -> Lookup, op: Op)
    requires forall n :: n in names ==> n in joined
    ensures op in OpsFor(o, selected, names, joined, lookup) <==>
            op.cluster in names && Decide(o, op.cluster in selected, op.cluster, joined[op.cluster],
                lookup(op.cluster)) == Some(op)
  {
    if names != [] {
      var n := names[|names| - 1];
      OpsForMember(o, selected, names[..|names| - 1], joined, lookup, op);
      assert op.cluster in names <==> op.cluster == n || op.cluster in names[..|names| - 1];
    }
  }

  /** Some cluster was skipped because its cascading-delete finalizer is missing. */
  ghost predicate MissesFinalizer(ops: seq<Op>) {
    exists op :: op in ops && op.Record? && op.status == FinalizerCheckFailed
  }

  /** How a pass that reached the clusters ends: it is repeated after a failure, and after a while if a cluster was
      skipped for its missing finalizer. */
  ghost function SyncStatus(w: World, ops: seq<Op>): Status {
    if w.timeout || !w.reported || !w.dispatchOk then Error
    else if MissesFinalizer(ops) then Requeue
    else AllOK
  }

  lemma MissesFinalizerSnoc(ops: seq<Op>, op: Op)
    ensures MissesFinalizer(ops + [op]) <==> MissesFinalizer(ops) || (op.Record? && op.status == FinalizerCheckFailed)
  {
    assert forall o :: o in ops + [op] <==> o in ops || o == op;
  }

  // ---------- What a deletion pass finds in a cluster ----------

  datatype Finding = Unready | RetrievalFailed | Gone | Remains

  function Inspect(o: FedObject, c: Cluster, l: Lookup): Finding {
    if !c.ready then Unready
    else if l.Failed? then RetrievalFailed
    else if !HasObject(o, l) then Gone
    else Remains
  }

  function RemovalOp(n: string, l: Lookup): Op {
    if l.Found? && l.obj.orphan then RemoveManagedLabel(n) else Delete(n)
  }

  function RemovalOps(names: seq<string>, lookup: string -> Lookup): seq<Op> {
    seq(|names|, i requires 0 <= i < |names| => RemovalOp(names[i], lookup(names[i])))
  }

  lemma RemovalOpsMember(names: seq<string>, lookup: string -> Lookup)
    ensures forall n :: Delete(n) in RemovalOps(names, lookup) <==>
              n in names && !(lookup(n).Found? && lookup(n).obj.orphan)
    ensures forall n :: RemoveManagedLabel(n) in RemovalOps(names, lookup) <==>
              n in names && lookup(n).Found? && lookup(n).obj.orphan
  {
    var ops := RemovalOps(names, lookup);
    forall n | n in names ensures RemovalOp(n, lookup(n)) in ops {
      var i :| 0 <= i < |names| && names[i] == n;
      assert ops[i] == RemovalOp(n, lookup(n));
    }
    forall op | op in ops ensures op.cluster in names && op == RemovalOp(op.cluster, lookup(op.cluster)) {
      var i :| 0 <= i < |ops| && ops[i] == op;
      assert op == RemovalOp(names[i], lookup(names[i]));
    }
  }

  /** Every object found in a recorded, joined and ready cluster is deleted, or released if it is to be orphaned;
      nothing else is deleted or released. */
  ghost predicate RemovesWhatIsLeft(o: FedObject, w: World, ops: seq<Op>) {
    && (forall n :: Delete(n) in ops <==>
          Left(o, w, n) && !w.lookup(n).obj.orphan && exists p :: p in o.recorded && p.cluster == n)
    && (forall n :: RemoveManagedLabel(n) in ops <==>
          Left(o, w, n) && w.lookup(n).obj.orphan && exists p :: p in o.recorded && p.cluster == n)
  }

  lemma RemovalsDue(o: FedObject, w: World, remaining: seq<string>)
    requires w.joined.Ok?
    requires forall n :: n in remaining <==>
               && n in RecordedJoined(o.recorded, w.joined.value)
               && Inspect(o, w.joined.value[n], w.lookup(n)) == Remains
    ensures RemovesWhatIsLeft(o, w, RemovalOps(remaining, w.lookup))
  {
    RemovalOpsMember(remaining, w.lookup);
    forall n { RecordedNamesMember(o.recorded, n); }
  }

  function ProbeOps(names: seq<string>): seq<Op> {
    seq(|names|, i requires 0 <= i < |names| => CheckRemovedOrUnlabeled(names[i]))
  }

  /** The clusters that `recorded` names and that are joined. */
  function RecordedJoined(recorded: seq<PropagationStatus>, joined: map<string, Cluster>): set<string> {
    RecordedNames(recorded) * joined.Keys
  }

  /** Nothing of the object is left in any cluster it was recorded for: in the first listing every such cluster was
      ready, could be looked up and showed no object of ours; in the second listing every such cluster is ready, and
      those the first pass did not clear have passed the live check. */
  ghost predicate AllGone(o: FedObject, w: World) {
    && w.joined.Ok? && w.joinedLater.Ok?
    && (forall p :: p in o.recorded && p.cluster in w.joined.value ==>
          var l := w.lookup(p.cluster);
          && w.joined.value[p.cluster].ready && !l.Failed?
          && !(l.Found? && l.obj.derivedService == o.derivedService))
    && (forall p :: p in o.recorded && p.cluster in w.joinedLater.value ==>
          && w.joinedLater.value[p.cluster].ready
          && (p.cluster in w.joined.value || (w.liveCheck(p.cluster) && !w.timeout)))
  }

  /** Something is left, and all that is left is on its way out: every recorded, joined cluster could be inspected and
      the removals were dispatched. */
  ghost predicate BeingRemoved(o: FedObject, w: World) {
    && w.joined.Ok? && w.dispatchOk && !w.timeout
    && (forall p :: p in o.recorded && p.cluster in w.joined.value ==>
          w.joined.value[p.cluster].ready && !w.lookup(p.cluster).Failed?)
    && (exists p :: p in o.recorded && Left(o, w, p.cluster))
  }

  /** The object is found in a joined, ready cluster. */
  predicate Left(o: FedObject, w: World, n: string) {
    && w.joined.Ok? && n in w.joined.value && w.joined.value[n].ready
    && w.lookup(n).Found? && w.lookup(n).obj.derivedService == o.derivedService
  }

  /** What the deletion pass found, and what that says of the object. */
  lemma Findings(o: FedObject, w: World, noNeed: set<string>, remaining: seq<string>)
    requires w.joined.Ok?
    requires forall n :: n in noNeed <==>
               n in RecordedJoined(o.recorded, w.joined.value) && Inspect(o, w.joined.value[n], w.lookup(n)) == Gone
    requires forall n :: n in remaining <==>
               n in RecordedJoined(o.recorded, w.joined.value) && Inspect(o, w.joined.value[n], w.lookup(n)) == Remains
    ensures var names := RecordedJoined(o.recorded, w.joined.value);
            BeingRemoved(o, w) <==>
              remaining != [] && w.dispatchOk && !w.timeout && forall n :: n in names ==> n in noNeed || n in remaining
    ensures var names := RecordedJoined(o.recorded, w.joined.value);
            AllGone(o, w) <==>
              && remaining == [] && w.joinedLater.Ok? && names <= noNeed
              && forall n :: n in RecordedJoined(o.recorded, w.joinedLater.value) ==>
                   w.joinedLater.value[n].ready && (n in noNeed || (w.liveCheck(n) && !w.timeout))
  {
    AllGoneIff(o, w);
    BeingRemovedIff(o, w);
    if remaining != [] { assert remaining[0] in remaining; }
  }

  /** With nothing left, only clusters that joined after the first listing are probed. */
  lemma ProbesOnlyLaterClusters(o: FedObject, w: World, noNeed: set<string>, probed: seq<string>)
    requires w.joined.Ok? && w.joinedLater.Ok?
    requires RecordedJoined(o.recorded, w.joined.value) <= noNeed
    requires forall n :: n in probed ==> n in RecordedJoined(o.recorded, w.joinedLater.value) - noNeed
    ensures forall op :: op in ProbeOps(probed) ==> op.CheckRemovedOrUnlabeled? && op.cluster !in w.joined.value
    ensures w.joinedLater == w.joined ==> ProbeOps(probed) == []
  {
    forall op | op in ProbeOps(probed) ensures op.CheckRemovedOrUnlabeled? && op.cluster !in w.joined.value {
      var i :| 0 <= i < |probed| && ProbeOps(probed)[i] == op;
      assert probed[i] in probed;
    }
    if probed != [] { assert probed[0] in probed; }
  }

  lemma RecordedNamesMember(recorded: seq<PropagationStatus>, n: string)
    ensures n in RecordedNames(recorded) <==> exists p :: p in recorded && p.cluster == n
  {
    if p :| p in recorded && p.cluster == n {
      var i :| 0 <= i < |recorded| && recorded[i] == p;
      assert recorded[i].cluster == n;
    }
    if n in RecordedNames(recorded) {
      var i :| 0 <= i < |recorded| && recorded[i].cluster == n;
      assert recorded[i] in recorded;
    }
  }

  /** The two in terms of what the deletion pass finds. */
  lemma AllGoneIff(o: FedObject, w: World)
    requires w.joined.Ok?
    ensures AllGone(o, w) <==>
            && w.joinedLater.Ok?
            && (forall n :: n in RecordedJoined(o.recorded, w.joined.value) ==>
                  Inspect(o, w.joined.value[n], w.lookup(n)) == Gone)
            && (forall n :: n in RecordedJoined(o.recorded, w.joinedLater.value) ==>
                  w.joinedLater.value[n].ready && (n in w.joined.value || (w.liveCheck(n) && !w.timeout)))
  {
    forall n { RecordedNamesMember(o.recorded, n); }
  }

  lemma BeingRemovedIff(o: FedObject, w: World)
    requires w.joined.Ok?
    ensures BeingRemoved(o, w) <==>
            && w.dispatchOk && !w.timeout
            && (forall n :: n in RecordedJoined(o.recorded, w.joined.value) ==>
                  var finding := Inspect(o, w.joined.value[n], w.lookup(n)); finding == Gone || finding == Remains)
            && (exists n ::
                  n in RecordedJoined(o.recorded, w.joined.value)
                  && Inspect(o, w.joined.value[n], w.lookup(n)) == Remains)
  {
    forall n { RecordedNamesMember(o.recorded, n); }
    if p :| p in o.recorded && Left(o, w, p.cluster) {
      assert p.cluster in RecordedJoined(o.recorded, w.joined.value);
      assert Inspect(o, w.joined.value[p.cluster], w.lookup(p.cluster)) == Remains;
    }
    if n :| n in RecordedJoined(o.recorded, w.joined.value) && Inspect(o, w.joined.value[n], w.lookup(n)) == Remains {
      var p :| p in o.recorded && p.cluster == n;
      assert Left(o, w, p.cluster);
    }
  }

  // ---------- The pass ----------

  /** A pass gets past the gate: nobody upstream is pending and nothing failed on the way. */
  predicate GateOpen(o: FedObject) {
    && !o.terminating && o.centralizedHPA.Ok? && PendingControllers.Decode(o.pending).Ok?
    && (PendingControllers.Decode(o.pending).value == [] || o.centralizedHPA.value)
  }

  /** Somebody upstream is still pending. */
  ghost predicate WaitsForTurn(o: FedObject) {
    && o.centralizedHPA == Ok(false) && PendingControllers.Decode(o.pending).Ok?
    && PendingControllers.Decode(o.pending) != Ok([])
  }

  /** The pass reaches the loop over clusters. */
  predicate Proceeds(o: FedObject, w: World) {
    && GateOpen(o) && w.joined.Ok? && (o.hasSyncFinalizer || w.finalizerWrite == Written)
    && !(o.dryRun && o.recorded == []) && RecordsWritten(o, w)
  }

  /** Some selected cluster has no record yet, so the pass writes the status before it sends anything. */
  predicate NeedsRecord(o: FedObject, w: World) {
    w.joined.Ok? && !(Selected(o, w.joined.value) <= RecordedNames(o.recorded))
  }

  /** The status write met a conflict and was repeated on the object as the API server has it. From then on the pass
      holds that object, which nobody has checked again. */
  predicate Refreshed(o: FedObject, w: World) {
    Proceeds(o, w) && NeedsRecord(o, w) && w.statusWrite.StatusWrittenAfterConflict?
  }

  /** The object a pass over `o` holds when it sends, up to its records: the overrides that are sent are this object's,
      the template and the placement are those of `o`. */
  function Held(o: FedObject, w: World): FedObject {
    if Refreshed(o, w) then w.statusWrite.latest
    else if GateOpen(o) && w.finalizerWrite == Written then o.(hasSyncFinalizer := true)
    else o
  }

  /** Nobody upstream is pending on an object. */
  predicate Settled(o: FedObject) {
    PendingControllers.Decode(o.pending) == Ok([])
  }

  /** The gate is still open for the object whose overrides are sent exactly when no record had to be written, or it was
      written without a conflict, or nobody is pending on the refreshed object either. */
  lemma HeldIsSettledIff(o: FedObject, w: World)
    requires Proceeds(o, w) && Settled(o)
    ensures Settled(Held(o, w)) <==>
            !NeedsRecord(o, w) || !w.statusWrite.StatusWrittenAfterConflict? || Settled(w.statusWrite.latest)
  {
    assert Held(o, w).pending == if Refreshed(o, w) then w.statusWrite.latest.pending else o.pending;
  }

  /** An object placed in a new, ready cluster `c`, and a world in which `upstream` has become pending on it between the
      read and the status write. */
  function NewlyPlaced(c: string): FedObject {
    FedObject(false, PendingControllers.Canonical([]), Ok(false), true, false, false, {c}, [])
  }

  function MeetsConflict(c: string, upstream: string): World {
    var joined := map[c := Cluster(true, false, false, true)];
    var latest := NewlyPlaced(c).(pending := PendingControllers.Canonical([[upstream]]));
    World(Ok(joined), Ok(joined), n => NotFound, Written, StatusWrittenAfterConflict(latest), true, false, true,
          n => true)
  }

  /** An input on which it is not. By the contract of ReconcileLive the pass creates the object in `c`, with the
      overrides of a version on which `upstream` is still pending. */
  lemma ConflictSendsPendingOverrides(c: string, upstream: string)
    ensures var o, w := NewlyPlaced(c), MeetsConflict(c, upstream);
            && Refreshed(o, w) && Settled(o) && TakesObject(o, w, c)
            && w.lookup(c) == NotFound && !Settled(Held(o, w))
  {
    var o, w := NewlyPlaced(c), MeetsConflict(c, upstream);
    assert c in Selected(o, w.joined.value);
    assert RecordedNames([]) == {};
    assert PendingControllers.Normalize([[upstream]])[0] == [upstream];
  }

  /** How a pass that does not reach the clusters ends: waiting for a turn, and a dry run, are no failure. */
  function StopStatus(o: FedObject, w: World): Status {
    if PendingControllers.Decode(o.pending).Err? || o.centralizedHPA.Err? then Error
    else if !GateOpen(o) then AllOK
    else if !o.hasSyncFinalizer && w.finalizerWrite != Written then
      if w.finalizerWrite == WriteConflict then Conflict else Error
    else if o.dryRun && o.recorded == [] then AllOK
    else Error
  }

  /** Waiting for a turn, and a dry run of something never propagated, are no failure; a conflict on the finalizer is
      reported as one; anything else that stops a pass is an error, and nothing is put off. */
  lemma StopStatusIff(o: FedObject, w: World)
    requires !o.terminating
    ensures var readable := PendingControllers.Decode(o.pending).Ok? && o.centralizedHPA.Ok?;
            var finalized := o.hasSyncFinalizer || w.finalizerWrite == Written;
            && (StopStatus(o, w) == AllOK <==>
                  readable && (WaitsForTurn(o) || (finalized && o.dryRun && o.recorded == [])))
            && (StopStatus(o, w) == Conflict <==>
                  readable && !WaitsForTurn(o) && !o.hasSyncFinalizer && w.finalizerWrite == WriteConflict)
            && StopStatus(o, w) != Requeue
  {
    if o.centralizedHPA.Ok? {
      if o.centralizedHPA.value { assert o.centralizedHPA == Ok(true); } else { assert o.centralizedHPA == Ok(false); }
    }
  }

  /** The record of the newly selected clusters, if there are any, could be written. */
  predicate RecordsWritten(o: FedObject, w: World) {
    w.joined.Ok? && (!w.statusWrite.StatusNotWritten? || Selected(o, w.joined.value) <= RecordedNames(o.recorded))
  }

  function Selected(o: FedObject, joined: map<string, Cluster>): set<string> {
    if o.centralizedHPA == Ok(true) then {} else joined.Keys * o.placement
  }

  /** Placed without a HorizontalPodAutoscaler that distributes the object instead, in a cluster that is ready, stays,
      and has its finalizer. */
  predicate TakesObject(o: FedObject, w: World, c: string) {
    && o.centralizedHPA == Ok(false) && c in o.placement && w.joined.Ok? && c in w.joined.value
    && w.joined.value[c].ready && !w.joined.value[c].terminating && w.joined.value[c].hasFinalizer
  }

  /** The object is there, in a ready cluster that stays, although the placement, or the autoscaler that distributes the
      object instead, leaves the cluster out. */
  predicate Unwanted(o: FedObject, w: World, c: string) {
    && (o.centralizedHPA == Ok(true) || c !in o.placement) && w.joined.Ok? && c in w.joined.value
    && w.joined.value[c].ready && !w.joined.value[c].terminating
    && w.lookup(c).Found? && !w.lookup(c).obj.terminating
  }

  predicate IsRecorded(recorded: seq<PropagationStatus>, c: string) {
    exists p :: p in recorded && p.cluster == c
  }

  /** What it takes to reach the clusters: nobody is pending, or an autoscaler that distributes the object has taken
      over; the sync finalizer is on the object, it is no dry run of something never propagated, and every cluster it is
      placed in is recorded or the record can be written. */
  ghost predicate ReachesClusters(o: FedObject, w: World) {
    && !o.terminating && w.joined.Ok? && (o.hasSyncFinalizer || w.finalizerWrite == Written)
    && (o.dryRun ==> o.recorded != [])
    && (|| (o.centralizedHPA == Ok(true) && PendingControllers.Decode(o.pending).Ok?)
        || (&& o.centralizedHPA == Ok(false) && PendingControllers.Decode(o.pending) == Ok([])
            && (!w.statusWrite.StatusNotWritten?
                || forall c :: c in w.joined.value && c in o.placement ==> IsRecorded(o.recorded, c))))
  }

  lemma ReachesClustersIff(o: FedObject, w: World)
    ensures ReachesClusters(o, w) <==> Proceeds(o, w)
  {
    if o.centralizedHPA.Ok? && w.joined.Ok? {
      forall c { SelectedIff(o, w.joined.value, c); }
      forall c { RecordedNamesMember(o.recorded, c); }
      if o.centralizedHPA.value {
        assert o.centralizedHPA == Ok(true);
      } else {
        assert o.centralizedHPA == Ok(false);
      }
    }
  }

  /** What a pass that reaches the clusters sends, read off the object it found and the world alone: `side` is the side
      of a derived service that the object it holds is on. */
  ghost predicate SendsWhatIsDue(o: FedObject, w: World, side: bool, ops: seq<Op>) {
    && (forall c :: Create(c) in ops <==>
          && TakesObject(o, w, c) && !w.lookup(c).Failed?
          && !(w.lookup(c).Found? && w.lookup(c).obj.derivedService == side))
    && (forall c :: Update(c) in ops <==>
          TakesObject(o, w, c) && w.lookup(c).Found? && w.lookup(c).obj.derivedService == side)
    && (forall c :: Delete(c) in ops <==>
          Unwanted(o, w, c) && w.lookup(c).obj.derivedService == side && IsRecorded(o.recorded, c))
  }

  /** A cluster that would take the object lacks only its finalizer. */
  predicate MissesOnlyFinalizer(o: FedObject, w: World, c: string) {
    && o.centralizedHPA == Ok(false) && c in o.placement && w.joined.Ok? && c in w.joined.value
    && w.joined.value[c].ready && !w.joined.value[c].terminating && !w.joined.value[c].hasFinalizer
    && !w.lookup(c).Failed?
  }

  /** The records afterwards: the old ones, and one for each cluster the object is newly placed in. */
  ghost predicate RecordsWhatIsDue(o: FedObject, w: World, recorded: seq<PropagationStatus>) {
    && o.recorded <= recorded
    && (forall i :: |o.recorded| <= i < |recorded| ==> recorded[i].status == PendingCreate)
    && (forall c :: IsRecorded(recorded, c) <==>
          || IsRecorded(o.recorded, c)
          || (&& o.centralizedHPA == Ok(false) && c in o.placement && w.joined.Ok? && c in w.joined.value
              && !w.joined.value[c].terminating))
  }

  lemma RecordsDue(o: FedObject, w: World, recorded: seq<PropagationStatus>)
    requires o.centralizedHPA.Ok? && w.joined.Ok? && o.recorded <= recorded
    requires forall i :: |o.recorded| <= i < |recorded| ==> recorded[i].status == PendingCreate
    requires forall n :: n in RecordedNames(recorded) <==>
               || n in RecordedNames(o.recorded)
               || (n in Selected(o, w.joined.value) && !w.joined.value[n].terminating)
    ensures RecordsWhatIsDue(o, w, recorded)
  {
    forall c ensures IsRecorded(recorded, c) <==>
        || IsRecorded(o.recorded, c)
        || (&& o.centralizedHPA == Ok(false) && c in o.placement && c in w.joined.value
            && !w.joined.value[c].terminating)
    {
      SelectedIff(o, w.joined.value, c);
      RecordedNamesMember(o.recorded, c);
      RecordedNamesMember(recorded, c);
    }
  }

  /** A pass that is repeated after a while: nothing failed, and there is such a cluster. */
  ghost predicate AwaitsFinalizer(o: FedObject, w: World) {
    !w.timeout && w.reported && w.dispatchOk && exists c :: MissesOnlyFinalizer(o, w, c)
  }

  lemma SelectedIff(o: FedObject, joined: map<string, Cluster>, c: string)
    requires o.centralizedHPA.Ok?
    ensures c in Selected(o, joined) <==> o.centralizedHPA == Ok(false) && c in joined && c in o.placement
  {
    if o.centralizedHPA.value {
      assert o.centralizedHPA == Ok(true);
    } else {
      assert o.centralizedHPA == Ok(false);
    }
  }

  /** The clusters that have a record once the pass has written it. */
  ghost predicate ListsRecorded(o: FedObject, w: World, names: seq<string>)
    requires w.joined.Ok?
  {
    forall n :: n in names <==>
      && n in w.joined.value
      && (n in RecordedNames(o.recorded) || (n in Selected(o, w.joined.value) && !w.joined.value[n].terminating))
  }

  lemma DueAt(o: FedObject, side: bool, held: FedObject, w: World, names: seq<string>, c: string)
    requires o.centralizedHPA.Ok? && w.joined.Ok? && ListsRecorded(o, w, names) && held.derivedService == side
    ensures var ops := OpsFor(held, Selected(o, w.joined.value), names, w.joined.value, w.lookup);
            && (Create(c) in ops <==>
                  && TakesObject(o, w, c) && !w.lookup(c).Failed?
                  && !(w.lookup(c).Found? && w.lookup(c).obj.derivedService == side))
            && (Update(c) in ops <==>
                  TakesObject(o, w, c) && w.lookup(c).Found? && w.lookup(c).obj.derivedService == side)
            && (Delete(c) in ops <==>
                  Unwanted(o, w, c) && w.lookup(c).obj.derivedService == side && IsRecorded(o.recorded, c))
            && (Record(c, FinalizerCheckFailed) in ops <==> MissesOnlyFinalizer(o, w, c))
  {
    var joined, selected := w.joined.value, Selected(o, w.joined.value);
    OpsForMember(held, selected, names, joined, w.lookup, Create(c));
    OpsForMember(held, selected, names, joined, w.lookup, Update(c));
    OpsForMember(held, selected, names, joined, w.lookup, Delete(c));
    OpsForMember(held, selected, names, joined, w.lookup, Record(c, FinalizerCheckFailed));
    SelectedIff(o, joined, c);
    RecordedNamesMember(o.recorded, c);
  }

  /** The table's choices, for the clusters that have a record, are what is due. */
  lemma DueOps(o: FedObject, held: FedObject, w: World, names: seq<string>)
    requires o.centralizedHPA.Ok? && w.joined.Ok? && ListsRecorded(o, w, names)
    ensures var ops := OpsFor(held, Selected(o, w.joined.value), names, w.joined.value, w.lookup);
            && SendsWhatIsDue(o, w, held.derivedService, ops)
            && (SyncStatus(w, ops) == Requeue <==> AwaitsFinalizer(o, w))
  {
    var ops := OpsFor(held, Selected(o, w.joined.value), names, w.joined.value, w.lookup);
    forall c { DueAt(o, held.derivedService, held, w, names, c); }
    if c :| MissesOnlyFinalizer(o, w, c) { assert Record(c, FinalizerCheckFailed) in ops; }
    if op :| op in ops && op.Record? && op.status == FinalizerCheckFailed {
      assert op == Record(op.cluster, FinalizerCheckFailed);
    }
  }

  /** The loop over the clusters recorded already. */
  method ScanRecorded(recorded: seq<PropagationStatus>, joined: map<string, Cluster>, selected: set<string>)
    returns (pendingCreate: set<string>, requireSync: seq<string>)
    ensures pendingCreate == selected - RecordedNames(recorded)
    ensures forall n :: n in requireSync <==> n in joined && n in RecordedNames(recorded)
  {
    pendingCreate, requireSync := selected, [];
    for i := 0 to |recorded|
      invariant pendingCreate == selected - RecordedNames(recorded[..i])
      invariant forall n :: n in requireSync <==> n in joined && n in RecordedNames(recorded[..i])
    {
      RecordedNamesSnoc(recorded[..i], recorded[i]);
      assert recorded[..i] + [recorded[i]] == recorded[..i + 1];
      pendingCreate := pendingCreate - {recorded[i].cluster};
      if recorded[i].cluster in joined {
        requireSync := requireSync + [recorded[i].cluster];
      }
    }
    assert recorded[..|recorded|] == recorded;
  }

  /** The loop over the newly selected clusters, in the map's arbitrary order. */
  method AddPendingCreate(recorded: seq<PropagationStatus>, joined: map<string, Cluster>, pendingCreate: set<string>,
                          requireSync0: seq<string>)
    returns (clusters: seq<PropagationStatus>, requireSync: seq<string>)
    requires forall n :: n in requireSync0 <==> n in joined && n in RecordedNames(recorded)
    ensures recorded <= clusters && forall i :: |recorded| <= i < |clusters| ==> clusters[i].status == PendingCreate
    ensures forall n :: n in requireSync <==> n in joined && n in RecordedNames(clusters)
    ensures forall n :: n in RecordedNames(clusters) <==>
                        n in RecordedNames(recorded) || (n in pendingCreate && n in joined && !joined[n].terminating)
  {
    clusters, requireSync := recorded, requireSync0;
    var todo := pendingCreate;
    while todo != {}
      invariant todo <= pendingCreate
      invariant recorded <= clusters && forall i :: |recorded| <= i < |clusters| ==> clusters[i].status == PendingCreate
      invariant forall n :: n in requireSync <==> n in joined && n in RecordedNames(clusters)
      invariant forall n :: n in RecordedNames(clusters) <==>
                            || n in RecordedNames(recorded)
                            || (n in pendingCreate - todo && n in joined && !joined[n].terminating)
      decreases todo
    {
      var name :| name in todo;
      todo := todo - {name};
      if name in joined && !joined[name].terminating {
        RecordedNamesSnoc(clusters, PropagationStatus(name, PendingCreate));
        clusters := clusters + [PropagationStatus(name, PendingCreate)];
        requireSync := requireSync + [name];
      }
    }
  }

  class SyncPass {
    var fedObj: FedObject   // as the API server has it
    var log: seq<Op>

    constructor (o: FedObject)
      ensures fedObj == o && log == []
    {
      fedObj, log := o, [];
    }

    method EnsureFinalizer(w: World) returns (r: Write)
      modifies this`fedObj
      ensures r == if old(fedObj.hasSyncFinalizer) then Written else w.finalizerWrite
      ensures fedObj == if r == Written then old(fedObj).(hasSyncFinalizer := true) else old(fedObj)
    {
      if fedObj.hasSyncFinalizer { return Written; }
      r := w.finalizerWrite;
      if r == Written {
        fedObj := fedObj.(hasSyncFinalizer := true);
      }
    }

    /** Records every newly selected cluster as PendingCreate before anything is sent to it. */
    method PrepareToSync(w: World, isHPA: bool) returns (r: Result<(seq<string>, set<string>)>)
      requires fedObj.centralizedHPA == Ok(isHPA)
      modifies this`fedObj
      ensures r.Ok? <==> RecordsWritten(old(fedObj), w)
      ensures r.Err? ==> fedObj == old(fedObj)
      ensures r.Ok? && Selected(old(fedObj), w.joined.value) <= RecordedNames(old(fedObj.recorded)) ==>
          fedObj == old(fedObj)
      ensures r.Ok? ==>
                var joined, selected := w.joined.value, Selected(old(fedObj), w.joined.value);
                && r.value.1 == selected
                && fedObj == (if selected <= RecordedNames(old(fedObj.recorded)) then old(fedObj)
                              else if w.statusWrite.StatusWrittenAfterConflict? then w.statusWrite.latest
                              else old(fedObj)).(recorded := fedObj.recorded)
                && old(fedObj.recorded) <= fedObj.recorded
                && (forall i :: |old(fedObj.recorded)| <= i < |fedObj.recorded| ==>
                      fedObj.recorded[i].status == PendingCreate)
                && (forall n :: n in r.value.0 <==> n in joined && n in RecordedNames(fedObj.recorded))
                && (forall n :: n in RecordedNames(fedObj.recorded) <==>
                      n in RecordedNames(old(fedObj.recorded)) || (n in selected && !joined[n].terminating))
    {
      if w.joined.Err? { return Err; }
      var selected := Selected(fedObj, w.joined.value);
      var pendingCreate, requireSync := ScanRecorded(fedObj.recorded, w.joined.value, selected);
      assert pendingCreate == {} <==> selected <= RecordedNames(fedObj.recorded) by {
        assert forall n :: n in pendingCreate <==> n in selected && n !in RecordedNames(fedObj.recorded);
      }
      if pendingCreate == {} { return Ok((requireSync, selected)); }
      var clusters: seq<PropagationStatus>;
      clusters, requireSync := AddPendingCreate(fedObj.recorded, w.joined.value, pendingCreate, requireSync);
      match w.statusWrite {
        case StatusNotWritten => return Err;
        case StatusWritten => fedObj := fedObj.(recorded := clusters);
        case StatusWrittenAfterConflict(latest) => fedObj := latest.(recorded := clusters);
      }
      return Ok((requireSync, selected));
    }

    method SyncToClusters(w: World, clusters: seq<string>, selected: set<string>) returns (status: Status)
      requires w.joined.Ok? && forall n :: n in clusters ==> n in w.joined.value
      modifies this`log
      ensures log == old(log) + OpsFor(fedObj, selected, clusters, w.joined.value, w.lookup)
      ensures status == SyncStatus(w, OpsFor(fedObj, selected, clusters, w.joined.value, w.lookup))
    {
      var shouldRecheck := false;
      var joined := w.joined.value;
      for i := 0 to |clusters|
        invariant log == old(log) + OpsFor(fedObj, selected, clusters[..i], joined, w.lookup)
        invariant shouldRecheck == MissesFinalizer(OpsFor(fedObj, selected, clusters[..i], joined, w.lookup))
      {
        assert clusters[..i + 1][..i] == clusters[..i];
        var name := clusters[i];
        var op := SyncCluster(w, name, name in selected);
        if op.Some? {
          log := log + [op.value];
          shouldRecheck := shouldRecheck || op.value == Record(name, FinalizerCheckFailed);
          MissesFinalizerSnoc(OpsFor(fedObj, selected, clusters[..i], joined, w.lookup), op.value);
        }
      }
      assert clusters[..|clusters|] == clusters;
      if w.timeout { return Error; }
      if !w.reported { return Error; }
      if !w.dispatchOk { return Error; }
      status := if shouldRecheck then Requeue else AllOK;
    }

    /** The body of the loop over clusters, branch by branch. */
    method SyncCluster(w: World, name: string, selected: bool) returns (op: Option<Op>)
      requires w.joined.Ok? && name in w.joined.value
      ensures op == Decide(fedObj, selected, name, w.joined.value[name], w.lookup(name))
    {
      var cluster := w.joined.value[name];
      var shouldBeDeleted := !selected;
      var isCascadingDeletionTriggered := cluster.terminating && cluster.cascadingDelete;
      if !cluster.ready {
        return if !shouldBeDeleted then Some(Record(name, ClusterNotReady)) else None;
      }
      var found := w.lookup(name);
      if found.Failed? {
        return Some(Record(name, CachedRetrievalFailed));
      }
      if found.Found? && fedObj.derivedService != found.obj.derivedService {
        found := NotFound;
      }
      if isCascadingDeletionTriggered {
        return if found.Found? && !found.obj.terminating then Some(Record(name, WaitingForCascadingDeletion)) else None;
      }
      if shouldBeDeleted {
        if found.NotFound? { return None; }
        if found.obj.terminating { return Some(Record(name, WaitingForRemoval)); }
        if cluster.terminating && !cluster.cascadingDelete { return None; }
        return Some(Delete(name));
      }
      if cluster.terminating { return Some(Record(name, ClusterTerminating)); }
      if !cluster.hasFinalizer { return Some(Record(name, FinalizerCheckFailed)); }
      return Some(if found.NotFound? then Create(name) else Update(name));
    }

    /** The part of a pass before the clusters are looked at: wait for the upstream controllers, take the finalizer. It
        stops the pass with a status, or lets it through with the finalizer on the object. */
    method PassGate(w: World) returns (stop: Option<Status>)
      requires !fedObj.terminating
      modifies this`fedObj
      ensures !GateOpen(old(fedObj)) ==>
                && fedObj == old(fedObj)
                && stop == Some(if PendingControllers.Decode(fedObj.pending).Err? || fedObj.centralizedHPA.Err?
                    then Error else AllOK)
      ensures GateOpen(old(fedObj)) ==>
                if fedObj.hasSyncFinalizer then
                  && fedObj == old(fedObj).(hasSyncFinalizer := true)
                  && stop == (if fedObj.dryRun && fedObj.recorded == [] then Some(AllOK) else None)
                else
                  && fedObj == old(fedObj) && w.finalizerWrite != Written
                  && stop == Some(if w.finalizerWrite == WriteConflict then Conflict else Error)
      ensures GateOpen(old(fedObj)) ==> (fedObj.hasSyncFinalizer <==>
          old(fedObj.hasSyncFinalizer) || w.finalizerWrite == Written)
    {
      var pending := PendingControllers.Decode(fedObj.pending);
      if pending.Err? { return Some(Error); }
      if fedObj.centralizedHPA.Err? { return Some(Error); }
      if |pending.value| > 0 && !fedObj.centralizedHPA.value { return Some(AllOK); }
      var finalizer := EnsureFinalizer(w);
      if finalizer != Written {
        return Some(if finalizer == WriteConflict then Conflict else Error);
      }
      if fedObj.dryRun && |fedObj.recorded| == 0 { return Some(AllOK); }
      return None;
    }

    /** The part of a pass before anything is sent. */
    method BeforeSync(w: World) returns (stop: Option<Status>, clusters: seq<string>, selected: set<string>)
      requires !fedObj.terminating
      modifies this`fedObj
      ensures stop.None? <==> Proceeds(old(fedObj), w)
      ensures stop.None? <==> ReachesClusters(old(fedObj), w)
      ensures stop.None? ==> RecordsWhatIsDue(old(fedObj), w, fedObj.recorded)
      ensures stop.Some? ==> stop.value == StopStatus(old(fedObj), w) && fedObj.recorded == old(fedObj.recorded)
      ensures fedObj == Held(old(fedObj), w).(recorded := fedObj.recorded)
      ensures stop.None? ==>
                && selected == Selected(old(fedObj), w.joined.value)
                && ListsRecorded(old(fedObj), w, clusters)
    {
      ReachesClustersIff(fedObj, w);
      clusters, selected := [], {};
      stop := PassGate(w);
      if stop.Some? { return; }
      assert RecordsWritten(fedObj, w) == RecordsWritten(old(fedObj), w) by {
        assert w.joined.Ok? ==> Selected(fedObj, w.joined.value) == Selected(old(fedObj), w.joined.value);
      }
      var prepared := PrepareToSync(w, fedObj.centralizedHPA.value);
      if prepared.Err? { return Some(Error), [], {}; }
      clusters, selected := prepared.value.0, prepared.value.1;
      RecordsDue(old(fedObj), w, fedObj.recorded);
    }

    /** One pass over an object that is not being deleted. The log grows by a Create or an Update only for clusters
        already recorded, and only with the gate open. */
    method ReconcileLive(w: World) returns (status: Status)
      requires !fedObj.terminating
      modifies this
      ensures old(log) <= log
      ensures fedObj == Held(old(fedObj), w).(recorded := fedObj.recorded)
      ensures ReachesClusters(old(fedObj), w) ==>
                && SendsWhatIsDue(old(fedObj), w, fedObj.derivedService, log[|old(log)|..])
                && RecordsWhatIsDue(old(fedObj), w, fedObj.recorded)
                && (status == Requeue <==> AwaitsFinalizer(old(fedObj), w))
                && (status == Error <==> w.timeout || !w.reported || !w.dispatchOk)
      ensures !ReachesClusters(old(fedObj), w) ==> log == old(log) && fedObj.recorded == old(fedObj.recorded)
      ensures WaitsForTurn(old(fedObj)) ==> status == AllOK && log == old(log) && fedObj == old(fedObj)
      ensures forall op :: op in log[|old(log)|..] && (op.Create? || op.Update?) ==>
          MayPropagate(old(fedObj), fedObj, w, op.cluster)
      ensures forall op :: op in log[|old(log)|..] ==> !op.RemoveManagedLabel? && !op.CheckRemovedOrUnlabeled?
      ensures status == if ReachesClusters(old(fedObj), w) then SyncStatus(w, log[|old(log)|..])
          else StopStatus(old(fedObj), w)
    {
      var stop, clusters, selected := BeforeSync(w);
      if stop.Some? { return stop.value; }
      status := SyncToClusters(w, clusters, selected);
      ghost var ops := log[|old(log)|..];
      assert ops == OpsFor(fedObj, selected, clusters, w.joined.value, w.lookup);
      DueOps(old(fedObj), fedObj, w, clusters);
      forall op | op in ops ensures !op.RemoveManagedLabel? && !op.CheckRemovedOrUnlabeled? {
        OpsForMember(fedObj, selected, clusters, w.joined.value, w.lookup, op);
      }
      DueMayPropagate(old(fedObj), fedObj, w, ops);
    }

    /** Deletes, or releases if the object is to be orphaned, every object still found. */
    method HandleDeletionInClusters(w: World) returns (noNeed: set<string>, remaining: seq<string>, ok: Result<bool>)
      modifies this`log
      ensures w.joined.Err? ==> ok.Err? && log == old(log)
      ensures w.joined.Ok? ==>
                var names := RecordedJoined(fedObj.recorded, w.joined.value);
                && (forall n :: n in noNeed <==> n in names && Inspect(fedObj, w.joined.value[n], w.lookup(n)) == Gone)
                && (forall n :: n in remaining <==>
                      n in names && Inspect(fedObj, w.joined.value[n], w.lookup(n)) == Remains)
                && log == old(log) + RemovalOps(remaining, w.lookup)
                && (ok.Ok? <==> (remaining == [] || !w.timeout) && forall n :: n in names ==>
                      n in noNeed || n in remaining)
                && (ok.Ok? ==> ok.value == (remaining == [] || w.dispatchOk))
    {
      noNeed, remaining := {}, [];
      if w.joined.Err? { return noNeed, remaining, Err; }
      var joined := w.joined.value;
      var failures, unready := 0, 0;
      var recorded := fedObj.recorded;
      for i := 0 to |recorded|
        invariant failures >= 0 && unready >= 0
        invariant forall n :: n in noNeed <==>
            n in RecordedJoined(recorded[..i], joined) && Inspect(fedObj, joined[n], w.lookup(n)) == Gone
        invariant forall n :: n in remaining <==>
            n in RecordedJoined(recorded[..i], joined) && Inspect(fedObj, joined[n], w.lookup(n)) == Remains
        invariant log == old(log) + RemovalOps(remaining, w.lookup)
        invariant failures == 0 && unready == 0 <==>
                    forall n :: n in RecordedJoined(recorded[..i], joined) ==> n in noNeed || n in remaining
      {
        RecordedNamesSnoc(recorded[..i], recorded[i]);
        assert recorded[..i] + [recorded[i]] == recorded[..i + 1];
        var n := recorded[i].cluster;
        if n in joined {
          assert RecordedJoined(recorded[..i + 1], joined) == RecordedJoined(recorded[..i], joined) + {n};
          match Inspect(fedObj, joined[n], w.lookup(n))
          case Unready => unready := unready + 1;
          case RetrievalFailed => failures := failures + 1;
          case Gone => noNeed := noNeed + {n};
          case Remains =>
            assert RemovalOps(remaining + [n], w.lookup) == RemovalOps(remaining, w.lookup) +
                [RemovalOp(n, w.lookup(n))];
            remaining := remaining + [n];
            log := log + [RemovalOp(n, w.lookup(n))];
        } else {
          assert RecordedJoined(recorded[..i + 1], joined) == RecordedJoined(recorded[..i], joined);
        }
      }
      assert recorded[..|recorded|] == recorded;
      if remaining != [] && w.timeout { return noNeed, remaining, Err; }
      if failures > 0 || unready > 0 { return noNeed, remaining, Err; }
      return noNeed, remaining, Ok(remaining == [] || w.dispatchOk);
    }

    /** Probes the member API servers directly, except in clusters already seen to be clear. */
    method CheckObjectRemovedFromAllClusters(w: World, noNeed: set<string>) returns (ok: bool, probed: seq<string>)
      modifies this`log
      ensures log == old(log) + ProbeOps(probed)
      ensures w.joinedLater.Err? ==> !ok && probed == []
      ensures w.joinedLater.Ok? ==>
                var names := RecordedJoined(fedObj.recorded, w.joinedLater.value);
                && (forall n :: n in probed <==> n in names - noNeed && w.joinedLater.value[n].ready)
                && (ok <==> forall n :: n in names ==>
                              w.joinedLater.value[n].ready && (n in noNeed || (w.liveCheck(n) && !w.timeout)))
    {
      ok, probed := true, [];
      if w.joinedLater.Err? { return false, []; }
      var joined := w.joinedLater.value;
      var unready, allClear := 0, true;
      var recorded := fedObj.recorded;
      for i := 0 to |recorded|
        invariant unready >= 0 && log == old(log) + ProbeOps(probed)
        invariant forall n :: n in probed <==> n in RecordedJoined(recorded[..i], joined) - noNeed && joined[n].ready
        invariant unready == 0 <==> forall n :: n in RecordedJoined(recorded[..i], joined) ==> joined[n].ready
        invariant allClear <==> forall n :: n in probed ==> w.liveCheck(n)
      {
        RecordedNamesSnoc(recorded[..i], recorded[i]);
        assert recorded[..i] + [recorded[i]] == recorded[..i + 1];
        var n := recorded[i].cluster;
        if n in joined {
          assert RecordedJoined(recorded[..i + 1], joined) == RecordedJoined(recorded[..i], joined) + {n};
          if !joined[n].ready {
            unready := unready + 1;
          } else if n !in noNeed {
            assert ProbeOps(probed + [n]) == ProbeOps(probed) + [CheckRemovedOrUnlabeled(n)];
            log, probed, allClear := log + [CheckRemovedOrUnlabeled(n)], probed + [n], allClear && w.liveCheck(n);
          }
        } else {
          assert RecordedJoined(recorded[..i + 1], joined) == RecordedJoined(recorded[..i], joined);
        }
      }
      assert recorded[..|recorded|] == recorded;
      if probed != [] { assert probed[0] in probed; }
      if |probed| > 0 && w.timeout { return false, probed; }
      if unready > 0 { return false, probed; }
      return allClear, probed;
    }

    /** Removes the object from all clusters. The answer is whether something is still on its way out; without a failure
        and with nothing on its way out, nothing is left. */
    method EnsureRemovalFromClusters(w: World) returns (recheck: Result<bool>)
      modifies this`log
      ensures old(log) <= log
      ensures recheck == Ok(true) <==> BeingRemoved(fedObj, w)
      ensures recheck == Ok(false) <==> AllGone(fedObj, w)
      ensures RemovesWhatIsLeft(fedObj, w, log[|old(log)|..])
      ensures recheck == Ok(false) ==>
                && (forall op :: op in log[|old(log)|..] ==> op.cluster !in w.joined.value)
                && (w.joinedLater == w.joined ==> log == old(log))
      ensures forall op :: op in log[|old(log)|..] ==>
                op.Delete? || op.RemoveManagedLabel? || op.CheckRemovedOrUnlabeled?
    {
      var noNeed, remaining, ok := HandleDeletionInClusters(w);
      if w.joined.Ok? {
        Findings(fedObj, w, noNeed, remaining);
        RemovalsDue(fedObj, w, remaining);
      }
      if ok.Err? || !ok.value { return Err; }
      if |remaining| > 0 { return Ok(true); }
      var clear, probed := CheckObjectRemovedFromAllClusters(w, noNeed);
      if !clear { return Err; }
      ProbesOnlyLaterClusters(fedObj, w, noNeed, probed);
      assert log[|old(log)|..] == ProbeOps(probed);
      return Ok(false);
    }

    method RemoveFinalizer(w: World) returns (status: Status)
      modifies this`fedObj
      ensures fedObj == old(fedObj).(hasSyncFinalizer := status != AllOK)
      ensures status == AllOK <==> !old(fedObj.hasSyncFinalizer) || w.finalizerWrite == Written
      ensures status == Conflict <==> old(fedObj.hasSyncFinalizer) && w.finalizerWrite == WriteConflict
      ensures status == AllOK || status == Conflict || status == Error
    {
      if !fedObj.hasSyncFinalizer { return AllOK; }
      if w.finalizerWrite != Written {
        return if w.finalizerWrite == WriteConflict then Conflict else Error;
      }
      fedObj := fedObj.(hasSyncFinalizer := false);
      return AllOK;
    }

    /** A pass over an object that is being deleted. It gives up the finalizer exactly when nothing of the object is
        left anywhere it was recorded, and such a pass deletes nothing itself; with an unchanged listing of clusters
        it does not probe any cluster either. */
    method HandleTerminating(w: World) returns (status: Status)
      requires fedObj.terminating
      modifies this
      ensures old(log) <= log
      ensures fedObj == old(fedObj).(hasSyncFinalizer := fedObj.hasSyncFinalizer)
      ensures !old(fedObj.hasSyncFinalizer) ==> !fedObj.hasSyncFinalizer && log == old(log)
      ensures old(fedObj.hasSyncFinalizer) ==>
                (!fedObj.hasSyncFinalizer <==> AllGone(old(fedObj), w) && w.finalizerWrite == Written)
      ensures old(fedObj.hasSyncFinalizer) && !fedObj.hasSyncFinalizer ==>
                && (forall op :: op in log[|old(log)|..] ==>
                      op.CheckRemovedOrUnlabeled? && op.cluster !in w.joined.value)
                && (w.joinedLater == w.joined ==> log == old(log))
      ensures status == AllOK <==> !fedObj.hasSyncFinalizer
      ensures status == Requeue <==> old(fedObj.hasSyncFinalizer) && BeingRemoved(old(fedObj), w)
      ensures status == Conflict <==>
                old(fedObj.hasSyncFinalizer) && AllGone(old(fedObj), w) && w.finalizerWrite == WriteConflict
      ensures forall op :: op in log[|old(log)|..] ==>
                op.Delete? || op.RemoveManagedLabel? || op.CheckRemovedOrUnlabeled?
      ensures old(fedObj.hasSyncFinalizer) ==> RemovesWhatIsLeft(old(fedObj), w, log[|old(log)|..])
    {
      if !fedObj.hasSyncFinalizer { return AllOK; }
      var recheck := EnsureRemovalFromClusters(w);
      if recheck.Err? { return Error; }
      if recheck.value {
        assert recheck == Ok(true);
        return Requeue;
      }
      assert recheck == Ok(false);
      forall op | op in log[|old(log)|..] ensures op.CheckRemovedOrUnlabeled? {
        assert op == Delete(op.cluster) || op == RemoveManagedLabel(op.cluster) || op.CheckRemovedOrUnlabeled?;
      }
      status := RemoveFinalizer(w);
    }

    method Reconcile(w: World) returns (status: Status)
      modifies this
      ensures old(log) <= log
      ensures Obeys(old(fedObj), fedObj, w, log[|old(log)|..])
      ensures old(fedObj.terminating) && old(fedObj.hasSyncFinalizer) && !fedObj.hasSyncFinalizer ==>
          AllGone(old(fedObj), w)
    {
      if fedObj.terminating {
        status := HandleTerminating(w);
      } else {
        status := ReconcileLive(w);
      }
    }
  }

  /** With its conditions met, what is sent has been recorded before. */
  lemma DueMayPropagate(o: FedObject, now: FedObject, w: World, ops: seq<Op>)
    requires ReachesClusters(o, w) && now == Held(o, w).(recorded := now.recorded)
    requires SendsWhatIsDue(o, w, now.derivedService, ops) && RecordsWhatIsDue(o, w, now.recorded)
    ensures forall op :: op in ops && (op.Create? || op.Update?) ==> MayPropagate(o, now, w, op.cluster)
  {
    ReachesClustersIff(o, w);
    forall op | op in ops && (op.Create? || op.Update?) ensures MayPropagate(o, now, w, op.cluster) {
      assert op == Create(op.cluster) || op == Update(op.cluster);
      assert TakesObject(o, w, op.cluster);
      assert IsRecorded(now.recorded, op.cluster);
      RecordedNamesMember(now.recorded, op.cluster);
    }
  }

  lemma RecordedNamesSnoc(recorded: seq<PropagationStatus>, p: PropagationStatus)
    ensures RecordedNames(recorded + [p]) == RecordedNames(recorded) + {p.cluster}
  {
    var all := recorded + [p];
    forall n | n in RecordedNames(recorded) + {p.cluster} ensures n in RecordedNames(all) {
      if n == p.cluster { assert all[|recorded|].cluster == n; } else {
        var i :| 0 <= i < |recorded| && recorded[i].cluster == n;
        assert all[i].cluster == n;
      }
    }
  }

  /** What a Create or Update sent to `c` implies, with the object as the pass found it (`before`) and as it is
      stored when the operation is sent (`now`). */
  ghost predicate MayPropagate(before: FedObject, now: FedObject, w: World, c: string) {
    && Settled(before)
    && c in RecordedNames(now.recorded)
    && (now.hasSyncFinalizer || Refreshed(before, w))
    && w.joined.Ok? && c in w.joined.value && c in before.placement
    && w.joined.value[c].ready && !w.joined.value[c].terminating && w.joined.value[c].hasFinalizer
    && !w.lookup(c).Failed?
  }

  /** What the operations of any pass obey. */
  ghost predicate Obeys(before: FedObject, now: FedObject, w: World, ops: seq<Op>) {
    forall op :: op in ops && (op.Create? || op.Update?) ==>
      && !before.terminating && Proceeds(before, w) && MayPropagate(before, now, w, op.cluster)
      && now == Held(before, w).(recorded := now.recorded)
  }
}
