/** Deriving a federated object from its source object (`pkg/controllers/federate/util.go`) and the check that it is up
    to date (`pkg/util/propagationstatus/propagationstatus.go`). */
module Federate {
  import opened Wrappers
  import opened MergePatch
  import opened ObservedKeys
  import opened Submap

  type Members = map<string, Json>

  // ---------- Keys and JSON text ----------

  /** The annotation and label keys the controller knows by name, and the JSON text codec it uses. The keys themselves
      are in module FederateKeys. */
  datatype Setting = Setting(
    federatedAnnotations: set<string>,
    ignoredAnnotations: set<string>,
    federatedLabels: set<string>,
    observedAnnotationKeys: string,
    observedLabelKeys: string,
    mergePatch: string,
    pendingControllers: string,
    encode: Json -> string,
    decode: string -> Option<Json>)
  {
    predicate IsFederatedAnnotation(k: string) { k !in ignoredAnnotations && k in federatedAnnotations }

    predicate IsTemplateAnnotation(k: string) { k !in ignoredAnnotations && k !in federatedAnnotations }

    predicate IsFederatedLabel(k: string) { k in federatedLabels }

    predicate IsTemplateLabel(k: string) { k !in federatedLabels }

    /** The controllers' own bookkeeping is none of the annotations that are copied from the source. */
    predicate Proper() {
      && observedAnnotationKeys != observedLabelKeys && observedAnnotationKeys != mergePatch
      && observedLabelKeys != mergePatch && pendingControllers != mergePatch
      && pendingControllers != observedAnnotationKeys && pendingControllers != observedLabelKeys
      && observedAnnotationKeys !in federatedAnnotations && observedLabelKeys !in federatedAnnotations
      && mergePatch !in federatedAnnotations && pendingControllers !in federatedAnnotations
    }
  }

  // ---------- Source objects ----------

  function Metadata(o: Members): Members {
    if "metadata" in o && o["metadata"].Object? then o["metadata"].members else map[]
  }

  /** NestedStringMap: anything but an object of strings reads as no map. */
  function StringsOf(o: Members, field: string): StringMap {
    if field in o && o[field].Object? && forall k :: k in o[field].members ==> o[field].members[k].String?
    then map k | k in o[field].members :: o[field].members[k].s
    else map[]
  }

  function StringOf(o: Members, field: string): string {
    if field in o && o[field].String? then o[field].s else ""
  }

  function Labels(source: Members): StringMap { StringsOf(Metadata(source), "labels") }

  function Annotations(source: Members): StringMap { StringsOf(Metadata(source), "annotations") }

  function APIVersion(source: Members): string { StringOf(source, "apiVersion") }

  function Kind(source: Members): string { StringOf(source, "kind") }

  function FromStrings(m: StringMap): Json {
    Object(map k | k in m :: String(m[k]))
  }

  const REMOVED_METADATA: set<string> := {
    "selfLink", "uid", "resourceVersion", "creationTimestamp", "deletionTimestamp", "ownerReferences", "finalizers",
        "managedFields"
  }

  function TemplateMetadata(metadata: Members, annotations: StringMap, labels: StringMap): Members {
    (metadata - REMOVED_METADATA)["annotations" := FromStrings(annotations)]["labels" := FromStrings(labels)]
  }

  function TemplateForSourceObject(source: Members, annotations: StringMap, labels: StringMap): Members {
    var template := source - {"status"};
    if "metadata" in source && !source["metadata"].Object? then template
    else template["metadata" := Object(TemplateMetadata(Metadata(source), annotations, labels))]
  }

  // ---------- Classification ----------

  function Only(m: StringMap, p: string -> bool): StringMap {
    map k | k in m && p(k) :: m[k]
  }

  method ClassifyStringMap(src: StringMap, federated: string -> bool, template: string -> bool)
    returns (federatedMap: StringMap, templateMap: StringMap)
    ensures federatedMap == Only(src, federated) && templateMap == Only(src, template)
  {
    federatedMap, templateMap := map[], map[];
    var todo := src.Keys;
    while todo != {}
      invariant todo <= src.Keys
      invariant federatedMap == map k | k in src.Keys - todo && federated(k) :: src[k]
      invariant templateMap == map k | k in src.Keys - todo && template(k) :: src[k]
      decreases todo
    {
      var key :| key in todo;
      todo := todo - {key};
      if federated(key) { federatedMap := federatedMap[key := src[key]]; }
      if template(key) { templateMap := templateMap[key := src[key]]; }
    }
  }

  function FederatedLabels(s: Setting, source: Members): StringMap {
    Only(Labels(source), s.IsFederatedLabel)[APIVersion(source) := Kind(source)]
  }

  function FederatedAnnotations(s: Setting, source: Members): StringMap {
    Only(Annotations(source), s.IsFederatedAnnotation)
  }

  function Template(s: Setting, source: Members): Members {
    TemplateForSourceObject(source, Only(Annotations(source), s.IsTemplateAnnotation),
        Only(Labels(source), s.IsTemplateLabel))
  }

  // ---------- Federated objects ----------

  datatype OwnerReference = OwnerReference(apiVersion: string, kind: string, name: string, uid: string)

  function ControllerRef(source: Members): OwnerReference {
    OwnerReference(APIVersion(source), Kind(source), StringOf(Metadata(source), "name"),
        StringOf(Metadata(source), "uid"))
  }

  /** `template` is None when the stored text does not decode to an object. */
  datatype FedObject = FedObject(owners: seq<OwnerReference>, labels: StringMap, annotations: NilableMap,
      template: Option<Members>)

  ghost function Bookkeeping(s: Setting, source: Members): StringMap {
    map[s.observedAnnotationKeys := Record(Annotations(source), FederatedAnnotations(s, source)),
        s.observedLabelKeys := Record(Labels(source), FederatedLabels(s, source)),
        s.mergePatch := s.encode(Object(Diff(source, Template(s, source))))]
  }

  /** What an update makes of `f`, before the pending controllers are reset. */
  ghost function Desired(s: Setting, source: Members, f: FedObject): FedObject {
    FedObject([ControllerRef(source)], FederatedLabels(s, source),
      Some(Merged(FederatedAnnotations(s, source), Entries(f.annotations), s.IsFederatedAnnotation,
          Bookkeeping(s, source))),
      Some(Template(s, source)))
  }

  ghost function Created(s: Setting, source: Members): FedObject {
    FedObject([ControllerRef(source)], FederatedLabels(s, source),
      Some(Merged(FederatedAnnotations(s, source), map[], s.IsFederatedAnnotation, Bookkeeping(s, source))),
          Some(Template(s, source)))
  }

  function WithPending(s: Setting, f: FedObject, pending: string): FedObject {
    f.(annotations := Some(Entries(f.annotations)[s.pendingControllers := pending]))
  }

  datatype Outcome = Panicked | Failed | Done(updated: bool)

  /** The update writes into a nil annotation map. */
  predicate WritesToNilMap(s: Setting, source: Members, f: FedObject) {
    f.annotations.None? && FederatedAnnotations(s, source) == map[]
  }

  class FederatedObject {
    var owners: seq<OwnerReference>
    var labels: StringMap
    var annotations: NilableMap
    var template: Option<Members>

    ghost function Abs(): FedObject
      reads this
    {
      FedObject(owners, labels, annotations, template)
    }

    method Update(s: Setting, source: Members, pending: string) returns (r: Outcome)
      requires s.Proper()
      modifies this
      ensures var f := old(Abs());
              if f.template.None? then
                r == Failed && Abs() == f.(owners := [ControllerRef(source)], labels := FederatedLabels(s, source))
              else if WritesToNilMap(s, source, f) then r == Panicked
              else
                && r == Done(Desired(s, source, f) != f)
                && Abs() == if r.updated then WithPending(s, Desired(s, source, f), pending) else f
      ensures r.Done? && ValidKeys(source) && (NoClashingLabel(source) ==> PatchReadsBack(s, source)) ==>
                IsFederatedTemplateUpToDate(s, source, Abs()) == Ok(NoClashingLabel(source))
    {
      ghost var f, desired := Abs(), Desired(s, source, Abs());
      var federatedLabels, federatedAnnotations, targetTemplate, annotationKeys, labelKeys := Derive(s, source);
      var identityUpdated := SetIdentity([ControllerRef(source)], federatedLabels);
      if template.None? { return Failed; }
      var templateUpdated := SetTemplate(targetTemplate);
      var patch := s.encode(Object(Diff(source, targetTemplate)));
      var newAnnotations, annotationsUpdated := MergeAnnotations(s, federatedAnnotations, annotations, annotationKeys,
          labelKeys, patch);
      if newAnnotations.None? { return Panicked; }
      assert desired == FedObject(owners, labels, newAnnotations, template);
      var isUpdated := SetAnnotations(s, newAnnotations, annotationsUpdated, identityUpdated || templateUpdated,
          pending);
      assert isUpdated <==> desired != f;
      OutcomeUpToDate(s, source, f, pending, Abs());
      return Done(isUpdated);
    }

    /** The last part of the update: store the merged annotations if they changed, and reset the pending controllers if
        anything did. */
    method SetAnnotations(s: Setting, merged: NilableMap, annotationsUpdated: bool, restUpdated: bool, pending: string)
      returns (isUpdated: bool)
      requires merged.Some? && (annotationsUpdated <==> merged != annotations)
      modifies this`annotations
      ensures isUpdated <==> restUpdated || annotationsUpdated
      ensures annotations == if isUpdated then Some(Entries(merged)[s.pendingControllers := pending]) else merged
    {
      if annotationsUpdated {
        annotations := merged;
      }
      isUpdated := restUpdated || annotationsUpdated;
      if isUpdated {
        annotations := Some(Entries(annotations)[s.pendingControllers := pending]);
      }
    }

    method SetIdentity(newOwners: seq<OwnerReference>, newLabels: StringMap) returns (updated: bool)
      modifies this`owners, this`labels
      ensures owners == newOwners && labels == newLabels
      ensures updated <==> owners != old(owners) || labels != old(labels)
    {
      updated := owners != newOwners || labels != newLabels;
      owners, labels := newOwners, newLabels;
    }

    method SetTemplate(newTemplate: Members) returns (updated: bool)
      modifies this`template
      ensures template == Some(newTemplate)
      ensures updated <==> template != old(template)
    {
      updated := template != Some(newTemplate);
      template := Some(newTemplate);
    }
  }

  /** The part of the update that depends on the source alone. */
  method Derive(s: Setting, source: Members)
    returns (federatedLabels: StringMap, federatedAnnotations: StringMap, targetTemplate: Members,
        annotationKeys: string, labelKeys: string)
    ensures federatedLabels == FederatedLabels(s, source) && federatedAnnotations == FederatedAnnotations(s, source)
    ensures targetTemplate == Template(s, source)
    ensures Bookkeeping(s, source) == map[s.observedAnnotationKeys := annotationKeys, s.observedLabelKeys := labelKeys,
                                          s.mergePatch := s.encode(Object(Diff(source, targetTemplate)))]
  {
    var templateLabels, templateAnnotations;
    federatedLabels, templateLabels := ClassifyStringMap(Labels(source), s.IsFederatedLabel, s.IsTemplateLabel);
    federatedLabels := federatedLabels[APIVersion(source) := Kind(source)];
    federatedAnnotations, templateAnnotations := ClassifyStringMap(Annotations(source), s.IsFederatedAnnotation,
        s.IsTemplateAnnotation);
    annotationKeys := GenerateObservedKeys(Annotations(source), federatedAnnotations);
    labelKeys := GenerateObservedKeys(Labels(source), federatedLabels);
    targetTemplate := TemplateForSourceObject(source, templateAnnotations, templateLabels);
  }

  function Merged(federated: StringMap, current: StringMap, matcher: string -> bool, bookkeeping: StringMap): StringMap
  {
    Replaced(federated, current, matcher) + bookkeeping
  }

  /** The part of the update that merges annotations, because other controllers have theirs on the object too. It
      returns None where the source would write into a nil map. */
  method MergeAnnotations(s: Setting, federated: StringMap, current: NilableMap, annotationKeys: string,
                          labelKeys: string, patch: string)
    returns (merged: NilableMap, changed: bool)
    requires s.Proper() && forall k :: k in federated ==> s.IsFederatedAnnotation(k)
    ensures merged.None? <==> current.None? && federated == map[]
    ensures merged.Some? ==>
              merged.value == Merged(federated, Entries(current), s.IsFederatedAnnotation,
                map[s.observedAnnotationKeys := annotationKeys, s.observedLabelKeys := labelKeys,
                    s.mergePatch := patch])
    ensures merged.Some? ==> (changed <==> merged != current)
  {
    var copied, changes := CopySubmap(federated, current, s.IsFederatedAnnotation);
    NoChangesMeansSame(federated, Entries(current), s.IsFederatedAnnotation);
    assert federated != map[] ==> exists k :: k in federated;
    if copied.None? { return None, false; }
    var m := copied.value;
    ghost var changedByCopy := changes > 0;
    assert current.None? ==> changedByCopy by {
      if current.None? {
        var k :| k in federated;
        assert k in Changed(federated, Entries(current), s.IsFederatedAnnotation);
      }
    }
    m, changes := PutBookkeeping(s, m, annotationKeys, labelKeys, patch, changes);
    ghost var bookkeeping := map[s.observedAnnotationKeys := annotationKeys, s.observedLabelKeys := labelKeys,
        s.mergePatch := patch];
    if current.Some? { MergedUnchanged(federated, current.value, s.IsFederatedAnnotation, bookkeeping); }
    return Some(m), changes > 0;
  }

  method PutBookkeeping(s: Setting, m: StringMap, annotationKeys: string, labelKeys: string, patch: string,
                        changes: nat)
    returns (m': StringMap, changes': nat)
    requires s.Proper()
    ensures m' == m + map[s.observedAnnotationKeys := annotationKeys, s.observedLabelKeys := labelKeys,
        s.mergePatch := patch]
    ensures changes' >= changes && (changes' == changes <==> m' == m)
  {
    m', changes' := Put(m, s.observedAnnotationKeys, annotationKeys, changes);
    m', changes' := Put(m', s.observedLabelKeys, labelKeys, changes');
    m', changes' := Put(m', s.mergePatch, patch, changes');
    PutThree(m, s.observedAnnotationKeys, annotationKeys, s.observedLabelKeys, labelKeys, s.mergePatch, patch);
  }

  /** Three writes at distinct keys leave a map as it was exactly when each of them does. */
  lemma PutThree(m: StringMap, k1: string, v1: string, k2: string, v2: string, k3: string, v3: string)
    requires k1 != k2 && k1 != k3 && k2 != k3
    ensures m[k1 := v1][k2 := v2][k3 := v3] == m + map[k1 := v1, k2 := v2, k3 := v3]
    ensures m[k1 := v1][k2 := v2][k3 := v3] == m ==> m[k1 := v1] == m && m[k2 := v2] == m
  {
    var all := m[k1 := v1][k2 := v2][k3 := v3];
    assert all[k1] == v1 && all[k2] == v2;
  }

  lemma MergedUnchanged(federated: StringMap, current: StringMap, matcher: string -> bool, bookkeeping: StringMap)
    requires forall k :: k in bookkeeping ==> !matcher(k)
    ensures Merged(federated, current, matcher, bookkeeping) == current <==>
            && Replaced(federated, current, matcher) == current
            && Replaced(federated, current, matcher) + bookkeeping == Replaced(federated, current, matcher)
  {
    var r, m := Replaced(federated, current, matcher), Merged(federated, current, matcher, bookkeeping);
    if m == current {
      forall k ensures Lookup(r, k) == Lookup(current, k) {
        LookupReplaced(federated, current, matcher, k);
        assert matcher(k) ==> Lookup(m, k) == Lookup(r, k);
      }
      SameLookups(r, current);
    }
  }

  method Put(m: StringMap, k: string, v: string, changes: nat) returns (m': StringMap, changes': nat)
    ensures m' == m[k := v]
    ensures changes' == if m' == m then changes else changes + 1
  {
    m', changes' := m, changes;
    if k !in m || m[k] != v {
      m', changes' := m[k := v], changes + 1;
    }
  }

  /** Merging a second time, with a key of somebody else's added in between, changes nothing. */
  lemma MergedTwice(federated: StringMap, current: StringMap, matcher: string -> bool, bookkeeping: StringMap,
                    other: string, v: string)
    requires (forall k :: k in bookkeeping ==> !matcher(k)) && !matcher(other) && other !in bookkeeping
    ensures var m := Merged(federated, current, matcher, bookkeeping)[other := v];
            Merged(federated, m, matcher, bookkeeping) == m
  {
    var m := Merged(federated, current, matcher, bookkeeping)[other := v];
    var m' := Merged(federated, m, matcher, bookkeeping);
    forall k ensures Lookup(m', k) == Lookup(m, k) {
      LookupReplaced(federated, current, matcher, k);
      LookupReplaced(federated, m, matcher, k);
    }
    SameLookups(m', m);
  }

  lemma BookkeepingIsPrivate(s: Setting, source: Members)
    requires s.Proper()
    ensures Bookkeeping(s, source).Keys == {s.observedAnnotationKeys, s.observedLabelKeys, s.mergePatch}
    ensures forall k :: k in Bookkeeping(s, source) ==> !s.IsFederatedAnnotation(k)
    ensures s.pendingControllers !in Bookkeeping(s, source)
  {}

  // ---------- The up-to-date check ----------

  function IsFederatedTemplateUpToDate(s: Setting, source: Members, f: FedObject): Result<bool> {
    if f.template.None? then Err
    else
      var annotations := Entries(f.annotations);
      if annotations == map[] then Ok(false)
      else if !Synced(Annotations(source), annotations, Value(annotations, s.observedAnnotationKeys)) then Ok(false)
      else if !Synced(Labels(source), f.labels, Value(annotations, s.observedLabelKeys)) then Ok(false)
      else
        var patch := s.decode(Value(annotations, s.mergePatch));
        if patch.None? || !patch.value.Object? then Err
        else Ok(Merge(Object(source), patch.value) == Object(f.template.value))
  }

  // ---------- Regenerating the template ----------

  lemma StringsArePatchable(a: Members, m: StringMap)
    ensures NullFree(FromStrings(m))
    ensures Patchable(a, FromStrings(m).members)
  {}

  /** Whatever nulls the source holds, the patch to its template can be written down: all that is new in the template
      are maps of strings. */
  lemma TemplatePatchable(source: Members, annotations: StringMap, labels: StringMap)
    ensures Patchable(source, TemplateForSourceObject(source, annotations, labels))
  {
    var metadata := Metadata(source);
    var m := TemplateMetadata(metadata, annotations, labels);
    forall k | k in m
      ensures (k in metadata && m[k] == metadata[k]) || m[k] in {FromStrings(annotations), FromStrings(labels)}
    {}
    StringsArePatchable(map[], annotations);
    StringsArePatchable(map[], labels);
    forall k | k in metadata && metadata[k].Object?
      ensures Patchable(metadata[k].members, FromStrings(annotations).members)
      ensures Patchable(metadata[k].members, FromStrings(labels).members)
    {
      StringsArePatchable(metadata[k].members, annotations);
      StringsArePatchable(metadata[k].members, labels);
    }
    assert Patchable(metadata, m);
    if "metadata" !in source {
      assert NullFree(Object(m));
    }
  }

  lemma TemplateRegenerated(s: Setting, source: Members)
    ensures Merge(Object(source), Object(Diff(source, Template(s, source)))) == Object(Template(s, source))
  {
    TemplatePatchable(source, Only(Annotations(source), s.IsTemplateAnnotation),
        Only(Labels(source), s.IsTemplateLabel));
    DiffThenMerge(source, Template(s, source));
  }

  // ---------- The main results ----------

  ghost predicate ValidKeys(source: Members) {
    (forall k :: k in Annotations(source) ==> ValidKey(k)) && (forall k :: k in Labels(source) ==> ValidKey(k))
  }

  /** The text of the patch for this source decodes to that patch. */
  ghost predicate PatchReadsBack(s: Setting, source: Members) {
    var patch := Object(Diff(source, Template(s, source)));
    s.decode(s.encode(patch)) == Some(patch)
  }

  /** The source carries no label that is keyed by its own apiVersion and says something other than its kind. */
  predicate NoClashingLabel(source: Members) {
    APIVersion(source) in Labels(source) ==> Labels(source)[APIVersion(source)] == Kind(source)
  }

  /** `f` carries what an update or a creation writes. */
  ghost predicate Carries(s: Setting, source: Members, f: FedObject) {
    && f.labels == FederatedLabels(s, source)
    && f.template == Some(Template(s, source))
    && f.annotations.Some?
    && (forall k :: k in Bookkeeping(s, source) ==> Lookup(f.annotations.value, k) == Some(Bookkeeping(s, source)[k]))
    && (forall k :: k in FederatedAnnotations(s, source) ==>
        Lookup(f.annotations.value, k) == Some(FederatedAnnotations(s, source)[k]))
  }

  lemma AnnotationsSynced(s: Setting, source: Members, f: FedObject)
    requires ValidKeys(source) && s.Proper() && Carries(s, source, f)
    ensures Synced(Annotations(source), f.annotations.value,
        Record(Annotations(source), FederatedAnnotations(s, source)))
  {
    var a := f.annotations.value;
    SyncedAgainstRecord(Annotations(source), FederatedAnnotations(s, source), a);
    forall k | k in FederatedAnnotations(s, source) ensures Annotations(source)[k] == Value(a, k) {
      assert Lookup(a, k) == Some(FederatedAnnotations(s, source)[k]);
    }
  }

  lemma LabelsSynced(s: Setting, source: Members)
    requires ValidKeys(source)
    ensures Synced(Labels(source), FederatedLabels(s, source), Record(Labels(source), FederatedLabels(s, source))) <==>
            NoClashingLabel(source)
  {
    SyncedAgainstRecord(Labels(source), FederatedLabels(s, source), FederatedLabels(s, source));
  }

  lemma BookkeepingValues(s: Setting, source: Members, f: FedObject)
    requires s.Proper() && Carries(s, source, f)
    ensures var a := f.annotations.value;
            && a != map[]
            && Value(a, s.observedAnnotationKeys) == Record(Annotations(source), FederatedAnnotations(s, source))
            && Value(a, s.observedLabelKeys) == Record(Labels(source), FederatedLabels(s, source))
            && Value(a, s.mergePatch) == s.encode(Object(Diff(source, Template(s, source))))
  {
    var a, b := f.annotations.value, Bookkeeping(s, source);
    BookkeepingIsPrivate(s, source);
    forall k | k in b ensures k in a && Value(a, k) == b[k] {
      assert Lookup(a, k) == Some(b[k]);
    }
    assert s.observedAnnotationKeys in b && s.observedLabelKeys in b && s.mergePatch in b;
  }

  /** An object that carries what an update writes is up to date, except for exactly those sources whose own labels
      clash with the label the controller adds. */
  lemma UpToDateIff(s: Setting, source: Members, f: FedObject)
    requires ValidKeys(source) && s.Proper() && Carries(s, source, f)
    requires NoClashingLabel(source) ==> PatchReadsBack(s, source)
    ensures IsFederatedTemplateUpToDate(s, source, f) == Ok(NoClashingLabel(source))
  {
    BookkeepingValues(s, source, f);
    AnnotationsSynced(s, source, f);
    LabelsSynced(s, source);
    TemplateRegenerated(s, source);
  }

  lemma DesiredCarries(s: Setting, source: Members, f: FedObject, pending: string)
    requires s.Proper()
    ensures Carries(s, source, Desired(s, source, f))
    ensures Carries(s, source, WithPending(s, Desired(s, source, f), pending))
  {
    BookkeepingIsPrivate(s, source);
    MergedCarries(FederatedAnnotations(s, source), Entries(f.annotations), s.IsFederatedAnnotation,
        Bookkeeping(s, source), s.pendingControllers, pending);
  }

  lemma MergedCarries(federated: StringMap, current: StringMap, matcher: string -> bool, bookkeeping: StringMap,
                      other: string, v: string)
    requires (forall k :: k in bookkeeping ==> !matcher(k)) && !matcher(other) && other !in bookkeeping
    requires forall k :: k in federated ==> matcher(k)
    ensures var m := Merged(federated, current, matcher, bookkeeping);
            && (forall k :: k in bookkeeping ==>
                Lookup(m, k) == Some(bookkeeping[k]) && Lookup(m[other := v], k) == Some(bookkeeping[k]))
            && (forall k :: k in federated ==>
                Lookup(m, k) == Some(federated[k]) && Lookup(m[other := v], k) == Some(federated[k]))
  {}

  /** Once an update has run, the object is up to date. */
  lemma UpdateMakesUpToDate(s: Setting, source: Members, f: FedObject, pending: string)
    requires ValidKeys(source) && s.Proper() && (NoClashingLabel(source) ==> PatchReadsBack(s, source))
    ensures IsFederatedTemplateUpToDate(s, source,
        WithPending(s, Desired(s, source, f), pending)) == Ok(NoClashingLabel(source))
  {
    DesiredCarries(s, source, f, pending);
    UpToDateIff(s, source, WithPending(s, Desired(s, source, f), pending));
  }

  /** A second update finds nothing to change, whatever the source's labels are. */
  lemma UpdateIsFixedPoint(s: Setting, source: Members, f: FedObject, pending: string)
    requires s.Proper()
    ensures var g := WithPending(s, Desired(s, source, f), pending);
            Desired(s, source, g) == g
  {
    BookkeepingIsPrivate(s, source);
    MergedTwice(FederatedAnnotations(s, source), Entries(f.annotations), s.IsFederatedAnnotation,
        Bookkeeping(s, source), s.pendingControllers, pending);
  }

  /** A freshly created object is up to date, and updating it changes nothing. */
  lemma CreationIsFixedPoint(s: Setting, source: Members, pending: string)
    requires s.Proper()
    ensures var g := WithPending(s, Created(s, source), pending);
            Desired(s, source, g) == g && !WritesToNilMap(s, source, g)
    ensures ValidKeys(source) && (NoClashingLabel(source) ==> PatchReadsBack(s, source)) ==>
              IsFederatedTemplateUpToDate(s, source,
                  WithPending(s, Created(s, source), pending)) == Ok(NoClashingLabel(source))
  {
    var nothing := FedObject([], map[], Some(map[]), None);
    assert Created(s, source) == Desired(s, source, nothing);
    UpdateIsFixedPoint(s, source, nothing, pending);
    if ValidKeys(source) && (NoClashingLabel(source) ==> PatchReadsBack(s, source)) {
      UpdateMakesUpToDate(s, source, nothing, pending);
    }
  }

  /** An object that an update leaves alone is up to date as well: the check and the update agree on what is stale. */
  lemma NothingToUpdateMeansUpToDate(s: Setting, source: Members, f: FedObject)
    requires ValidKeys(source) && s.Proper() && Desired(s, source, f) == f
    requires NoClashingLabel(source) ==> PatchReadsBack(s, source)
    ensures IsFederatedTemplateUpToDate(s, source, f) == Ok(NoClashingLabel(source))
  {
    DesiredCarries(s, source, f, "");
    UpToDateIff(s, source, f);
  }

  /** Either way the object an update leaves behind is up to date. */
  lemma OutcomeUpToDate(s: Setting, source: Members, f: FedObject, pending: string, after: FedObject)
    requires s.Proper()
    requires after == if Desired(s, source, f) != f then WithPending(s, Desired(s, source, f), pending) else f
    ensures ValidKeys(source) && (NoClashingLabel(source) ==> PatchReadsBack(s, source)) ==>
              IsFederatedTemplateUpToDate(s, source, after) == Ok(NoClashingLabel(source))
  {
    if ValidKeys(source) && (NoClashingLabel(source) ==> PatchReadsBack(s, source)) {
      if Desired(s, source, f) != f {
        UpdateMakesUpToDate(s, source, f, pending);
      } else {
        NothingToUpdateMeansUpToDate(s, source, f);
      }
    }
  }

  /** A source labelled with its own apiVersion, as `v1: x` on a `v1` Secret, is never seen as up to date. */
  lemma ClashingLabelNeverUpToDate(s: Setting, f: FedObject, pending: string)
    requires s.Proper()
    ensures var source := map["apiVersion" := String("v1"), "kind" := String("Secret"),
                              "metadata" := Object(map["labels" := Object(map["v1" := String("x")])])];
            IsFederatedTemplateUpToDate(s, source, WithPending(s, Desired(s, source, f), pending)) == Ok(false)
  {
    var source := map["apiVersion" := String("v1"), "kind" := String("Secret"),
                      "metadata" := Object(map["labels" := Object(map["v1" := String("x")])])];
    ClashingLabel();
    UpdateMakesUpToDate(s, source, f, pending);
  }

  lemma ClashingLabel()
    ensures var source := map["apiVersion" := String("v1"), "kind" := String("Secret"),
                              "metadata" := Object(map["labels" := Object(map["v1" := String("x")])])];
            ValidKeys(source) && !NoClashingLabel(source)
  {
    var labels := map["v1" := String("x")];
    var metadata := map["labels" := Object(labels)];
    var source := map["apiVersion" := String("v1"), "kind" := String("Secret"), "metadata" := Object(metadata)];
    assert Metadata(source) == metadata && Labels(source) == map["v1" := "x"] && Annotations(source) == map[];
    assert ValidKey("v1");
    assert APIVersion(source) == "v1" && Kind(source) == "Secret";
    assert Labels(source)["v1"] == "x" && |"x"| != |"Secret"|;
  }
}
