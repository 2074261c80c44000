/** What the template of a source object holds, and what the check that it is up to date can tell
    (`pkg/controllers/federate/util.go`, `pkg/util/propagationstatus/propagationstatus.go`), read off the JSON documents
    themselves. */
module FederateTemplate {
  import opened Wrappers
  import opened MergePatch
  import opened ObservedKeys
  import opened Submap
  import opened Federate

  // ---------- What the template holds ----------

  /** The object has a metadata object. */
  predicate HasMetadata(o: Members) {
    "metadata" in o && o["metadata"].Object?
  }

  predicate IsStrings(j: Json) {
    j.Object? && forall k :: k in j.members ==> j.members[k].String?
  }

  /** The map of strings in a field of the object's metadata, its labels or its annotations, has `k` with value `v`. */
  predicate Carried(o: Members, field: string, k: string, v: string) {
    && HasMetadata(o) && field in o["metadata"].members && IsStrings(o["metadata"].members[field])
    && k in o["metadata"].members[field].members && o["metadata"].members[field].members[k] == String(v)
  }

  predicate MetadataSays(o: Members, field: string, v: string) {
    HasMetadata(o) && field in o["metadata"].members && o["metadata"].members[field] == String(v)
  }

  predicate IsRemovedField(k: string) {
    || k == "selfLink" || k == "uid" || k == "resourceVersion" || k == "creationTimestamp"
    || k == "deletionTimestamp" || k == "ownerReferences" || k == "finalizers" || k == "managedFields"
  }

  lemma LabelsCarried(o: Members, k: string, v: string)
    ensures Lookup(Labels(o), k) == Some(v) <==> Carried(o, "labels", k, v)
    ensures Lookup(Annotations(o), k) == Some(v) <==> Carried(o, "annotations", k, v)
  {}

  /** The members of the template: the status is gone and every other member but the metadata is the source's. */
  lemma TemplateMembers(s: Setting, source: Members, k: string)
    ensures "status" !in Template(s, source)
    ensures k != "status" && k != "metadata" ==>
              && (k in Template(s, source) <==> k in source)
              && (k in source ==> Template(s, source)[k] == source[k])
    ensures "metadata" in source && !source["metadata"].Object? ==>
              "metadata" in Template(s, source) && Template(s, source)["metadata"] == source["metadata"]
    ensures "metadata" !in source || source["metadata"].Object? ==> HasMetadata(Template(s, source))
  {}

  /** Its metadata: the fields the host's API server keeps are gone, labels and annotations are maps of strings, and
      every other field is the source's. */
  lemma TemplateFields(s: Setting, source: Members, k: string)
    requires HasMetadata(source)
    ensures HasMetadata(Template(s, source))
    ensures var m, m' := source["metadata"].members, Template(s, source)["metadata"].members;
            && (IsRemovedField(k) ==> k !in m')
            && (k == "labels" || k == "annotations" ==> k in m' && IsStrings(m'[k]))
            && (!IsRemovedField(k) && k != "labels" && k != "annotations" ==>
                  (k in m' <==> k in m) && (k in m ==> m'[k] == m[k]))
  {
    assert IsRemovedField(k) <==> k in REMOVED_METADATA;
  }

  /** Its labels are exactly the source's that are not federated, its annotations exactly those that are neither
      federated nor ignored. */
  lemma TemplateLabels(s: Setting, source: Members, k: string, v: string)
    ensures Carried(Template(s, source), "labels", k, v) <==>
            Carried(source, "labels", k, v) && k !in s.federatedLabels
    ensures Carried(Template(s, source), "annotations", k, v) <==>
            Carried(source, "annotations", k, v) && k !in s.federatedAnnotations && k !in s.ignoredAnnotations
  {
    LabelsCarried(source, k, v);
    var t := Template(s, source);
    TemplateMembers(s, source, k);
    if HasMetadata(t) {
      assert t["metadata"].members["labels"] == FromStrings(Only(Labels(source), s.IsTemplateLabel));
      assert t["metadata"].members["annotations"] == FromStrings(Only(Annotations(source), s.IsTemplateAnnotation));
    }
  }

  /** The federated object itself is labelled with the source's federated labels and its type, annotated with its
      federated annotations, and owned by it. */
  lemma FederatedFromSource(s: Setting, source: Members, k: string, v: string)
    ensures Lookup(FederatedLabels(s, source), k) == Some(v) <==>
            if k == APIVersion(source) then v == Kind(source)
            else Carried(source, "labels", k, v) && k in s.federatedLabels
    ensures Lookup(FederatedAnnotations(s, source), k) == Some(v) <==>
            Carried(source, "annotations", k, v) && k in s.federatedAnnotations && k !in s.ignoredAnnotations
    ensures "apiVersion" in source && source["apiVersion"] == String(v) ==> APIVersion(source) == v
    ensures "kind" in source && source["kind"] == String(v) ==> Kind(source) == v
    ensures var owner := ControllerRef(source);
            && owner.apiVersion == APIVersion(source) && owner.kind == Kind(source)
            && (MetadataSays(source, "name", v) ==> owner.name == v)
            && (MetadataSays(source, "uid", v) ==> owner.uid == v)
  {
    LabelsCarried(source, k, v);
  }

  // ---------- What the check can tell ----------

  /** What the API server guarantees of a stored object. */
  predicate WellFormed(o: Members) {
    && HasMetadata(o)
    && ("labels" in o["metadata"].members ==> IsStrings(o["metadata"].members["labels"]))
    && ("annotations" in o["metadata"].members ==> IsStrings(o["metadata"].members["annotations"]))
  }

  /** One field of the metadata, a map of strings, that the patch computed from an older source has turned into what the
      template of that source has: then the newer source's template has the same. */
  lemma FieldCurrent(older: Members, newer: Members, field: string, p: string -> bool, patch: Members, merged: Members)
    requires field in older ==> IsStrings(older[field])
    requires field in newer ==> IsStrings(newer[field])
    requires var kept := FromStrings(Only(StringsOf(older, field), p));
             && (if field in older && older[field] == kept then field !in patch
                 else
                   && field in patch
                   && patch[field] == if field in older then Object(Diff(older[field].members, kept.members)) else kept)
             && field in merged && merged[field] == kept
    requires field in merged ==>
               if field !in patch then field in newer && merged[field] == newer[field]
               else merged[field] == Merge(if field in newer then newer[field] else Null, patch[field])
    ensures Only(StringsOf(newer, field), p) == Only(StringsOf(older, field), p)
  {
    var kept := Only(StringsOf(older, field), p);
    var now := StringsOf(newer, field);
    forall k ensures Lookup(Only(now, p), k) == Lookup(kept, k) {
      assert k in kept <==> k in FromStrings(kept).members;
      if field in newer {
        assert k in now <==> k in newer[field].members;
      }
    }
    SameLookups(Only(now, p), kept);
  }

  /** Applying the patch computed from an older source to a newer one gives the older template only if that is the newer
      source's template too. */
  lemma RegeneratedIsCurrent(s: Setting, older: Members, newer: Members)
    requires WellFormed(older) && WellFormed(newer)
    requires Merge(Object(newer), Object(Diff(older, Template(s, older)))) == Object(Template(s, older))
    ensures Template(s, newer) == Template(s, older)
  {
    var t, t' := Template(s, older), Template(s, newer);
    var patch := Diff(older, t);
    var merged := Merge(Object(newer), Object(patch)).members;
    assert merged == t;
    MetadataCurrent(s, older, newer);
    forall k ensures k in t <==> k in t' { SameMember(s, older, newer, k); }
    forall k | k in t ensures t[k] == t'[k] { SameMember(s, older, newer, k); }
  }

  lemma SameMember(s: Setting, older: Members, newer: Members, k: string)
    requires WellFormed(older) && WellFormed(newer)
    requires Merge(Object(newer), Object(Diff(older, Template(s, older)))) == Object(Template(s, older))
    requires Template(s, newer)["metadata"] == Template(s, older)["metadata"]
    ensures k in Template(s, older) <==> k in Template(s, newer)
    ensures k in Template(s, older) ==> Template(s, older)[k] == Template(s, newer)[k]
  {
    var t := Template(s, older);
    var patch := Diff(older, t);
    var merged := Merge(Object(newer), Object(patch)).members;
    assert merged == t;
    TemplateMembers(s, older, k);
    TemplateMembers(s, newer, k);
    if k != "status" && k != "metadata" { assert k !in patch; }
  }

  lemma MetadataCurrent(s: Setting, older: Members, newer: Members)
    requires WellFormed(older) && WellFormed(newer)
    requires Merge(Object(newer), Object(Diff(older, Template(s, older)))) == Object(Template(s, older))
    ensures Template(s, newer)["metadata"] == Template(s, older)["metadata"]
  {
    MergedMetadata(s, older, newer);
    var m, m', tm := older["metadata"].members, newer["metadata"].members, Template(s, older)["metadata"].members;
    var tm' := Template(s, newer)["metadata"].members;
    var patch := Diff(m, tm);
    var merged := Merge(Object(m'), Object(patch)).members;
    LabelsCurrent(s, older, newer, patch, merged);
    forall k ensures (k in tm <==> k in tm') && (k in tm ==> tm[k] == tm'[k]) {
      TemplateFields(s, older, k);
      TemplateFields(s, newer, k);
      if !IsRemovedField(k) && k != "labels" && k != "annotations" { assert k !in patch; }
    }
    assert tm == tm';
  }

  lemma LabelsCurrent(s: Setting, older: Members, newer: Members, patch: Members, merged: Members)
    requires WellFormed(older) && WellFormed(newer)
    requires HasMetadata(Template(s, older)) && HasMetadata(Template(s, newer))
    requires patch == Diff(older["metadata"].members, Template(s, older)["metadata"].members)
    requires merged == Merge(Object(newer["metadata"].members), Object(patch)).members
    requires merged == Template(s, older)["metadata"].members
    ensures var tm, tm' := Template(s, older)["metadata"].members, Template(s, newer)["metadata"].members;
            && "labels" in tm && "labels" in tm' && tm["labels"] == tm'["labels"]
            && "annotations" in tm && "annotations" in tm' && tm["annotations"] == tm'["annotations"]
  {
    var m, m' := older["metadata"].members, newer["metadata"].members;
    assert Metadata(older) == m && Metadata(newer) == m';
    FieldCurrent(m, m', "labels", s.IsTemplateLabel, patch, merged);
    FieldCurrent(m, m', "annotations", s.IsTemplateAnnotation, patch, merged);
  }

  lemma MergedMetadata(s: Setting, older: Members, newer: Members)
    requires WellFormed(older) && WellFormed(newer)
    requires Merge(Object(newer), Object(Diff(older, Template(s, older)))) == Object(Template(s, older))
    ensures HasMetadata(Template(s, older)) && HasMetadata(Template(s, newer))
    ensures var m, tm := older["metadata"].members, Template(s, older)["metadata"].members;
            Merge(newer["metadata"], Object(Diff(m, tm))) == Object(tm)
  {
    var t := Template(s, older);
    var merged := Merge(Object(newer), Object(Diff(older, t))).members;
    TemplateMembers(s, older, "metadata");
    TemplateMembers(s, newer, "metadata");
    assert merged == t && "metadata" in merged;
    var m, tm := older["metadata"].members, t["metadata"].members;
    if m == tm {
      DiffOfSame(m);
      MergeNothing(newer["metadata"].members);
    }
  }

  lemma DiffOfSame(m: Members)
    ensures Diff(m, m) == map[]
  {}

  lemma MergeNothing(m: Members)
    ensures Merge(Object(m), Object(map[])) == Object(m)
  {
    assert Merge(Object(m), Object(map[])).members == m;
  }

  /** The check never misses a change: when an object that carries what was written for an older source is up to date
      with a newer one, its template, its federated labels and its federated annotations are those of the newer
      source. */
  lemma UpToDateMeansCurrent(s: Setting, older: Members, newer: Members, f: FedObject)
    requires s.Proper() && ValidKeys(older) && WellFormed(older) && WellFormed(newer)
    requires Carries(s, older, f) && PatchReadsBack(s, older)
    requires IsFederatedTemplateUpToDate(s, newer, f) == Ok(true)
    ensures f.template == Some(Template(s, newer))
    ensures f.labels == FederatedLabels(s, newer)
    ensures FederatedAnnotations(s, newer) == FederatedAnnotations(s, older)
  {
    BookkeepingValues(s, older, f);
    RegeneratedIsCurrent(s, older, newer);
    SameTypeCurrent(s, older, newer);
    FederatedPartCurrent(s, older, newer, f);
  }

  lemma SameTypeCurrent(s: Setting, older: Members, newer: Members)
    requires Template(s, newer) == Template(s, older)
    ensures APIVersion(newer) == APIVersion(older) && Kind(newer) == Kind(older)
  {
    TemplateMembers(s, older, "apiVersion");
    TemplateMembers(s, newer, "apiVersion");
    TemplateMembers(s, older, "kind");
    TemplateMembers(s, newer, "kind");
  }

  /** What was observed of one of the two maps, under `p`, is still so in a map that is in sync with the record. */
  lemma ObservedIsCurrent(was: StringMap, now: StringMap, observed: StringMap, federated: StringMap, k: string)
    requires forall j :: j in was ==> ValidKey(j)
    requires Synced(now, federated, Record(was, observed))
    requires k in was ==> k in observed && Lookup(federated, k) == Some(was[k])
    ensures Lookup(now, k) == Lookup(was, k)
  {
    ParseOfRecord(was, observed);
    assert k in now <==> k in was;
  }

  lemma FederatedPartCurrent(s: Setting, older: Members, newer: Members, f: FedObject)
    requires s.Proper() && ValidKeys(older) && Carries(s, older, f)
    requires APIVersion(newer) == APIVersion(older) && Kind(newer) == Kind(older)
    requires Synced(Annotations(newer), f.annotations.value,
               Record(Annotations(older), FederatedAnnotations(s, older)))
    requires Synced(Labels(newer), f.labels, Record(Labels(older), FederatedLabels(s, older)))
    ensures FederatedLabels(s, newer) == FederatedLabels(s, older)
    ensures FederatedAnnotations(s, newer) == FederatedAnnotations(s, older)
  {
    FederatedAnnotationsCurrent(s, older, newer, f);
    FederatedLabelsCurrent(s, older, newer, f);
  }

  lemma FederatedAnnotationsCurrent(s: Setting, older: Members, newer: Members, f: FedObject)
    requires s.Proper() && ValidKeys(older) && Carries(s, older, f)
    requires Synced(Annotations(newer), f.annotations.value,
               Record(Annotations(older), FederatedAnnotations(s, older)))
    ensures FederatedAnnotations(s, newer) == FederatedAnnotations(s, older)
  {
    var a, a' := FederatedAnnotations(s, older), FederatedAnnotations(s, newer);
    forall k ensures Lookup(a', k) == Lookup(a, k) {
      if s.IsFederatedAnnotation(k) {
        assert k in Annotations(older) ==> k in a && Lookup(f.annotations.value, k) == Some(a[k]);
        ObservedIsCurrent(Annotations(older), Annotations(newer), a, f.annotations.value, k);
      }
    }
    SameLookups(a', a);
  }

  lemma FederatedLabelsCurrent(s: Setting, older: Members, newer: Members, f: FedObject)
    requires s.Proper() && ValidKeys(older) && Carries(s, older, f)
    requires APIVersion(newer) == APIVersion(older) && Kind(newer) == Kind(older)
    requires Synced(Labels(newer), f.labels, Record(Labels(older), FederatedLabels(s, older)))
    ensures FederatedLabels(s, newer) == FederatedLabels(s, older)
  {
    var l, l' := FederatedLabels(s, older), FederatedLabels(s, newer);
    forall k ensures Lookup(l', k) == Lookup(l, k) {
      if s.IsFederatedLabel(k) && k != APIVersion(older) {
        assert k in Labels(older) ==> k in l && Lookup(f.labels, k) == Some(l[k]);
        ObservedIsCurrent(Labels(older), Labels(newer), l, f.labels, k);
      }
    }
    SameLookups(l', l);
  }

  // ---------- Exactly when the check succeeds ----------

  /** The newer source holds nothing the template leaves out that the older one did not hold, and it still has the empty
      maps of labels or annotations the older one had. */
  predicate NothingNewLeftOut(older: Members, newer: Members)
    requires HasMetadata(older) && HasMetadata(newer)
  {
    var m, m' := older["metadata"].members, newer["metadata"].members;
    && ("status" in newer ==> "status" in older)
    && (forall k :: k in m' && IsRemovedField(k) ==> k in m)
    && ("labels" in m && m["labels"] == Object(map[]) ==> "labels" in m')
    && ("annotations" in m && m["annotations"] == Object(map[]) ==> "annotations" in m')
  }

  /** The newer source has the older one's template, and the same federated labels and annotations; and the keys that
      are neither federated nor in the template are the same. */
  predicate SameContents(s: Setting, older: Members, newer: Members) {
    && Template(s, newer) == Template(s, older)
    && FederatedLabels(s, newer) == FederatedLabels(s, older)
    && FederatedAnnotations(s, newer) == FederatedAnnotations(s, older)
    && Labels(newer).Keys == Labels(older).Keys && Annotations(newer).Keys == Annotations(older).Keys
  }

  /** A field of the metadata, from the other side: with the newer source's part of the template unchanged, the patch
      turns its field into what the template has. */
  lemma FieldRegenerated(older: Members, newer: Members, field: string, p: string -> bool)
    requires field in older ==> IsStrings(older[field])
    requires field in newer ==> IsStrings(newer[field])
    requires Only(StringsOf(newer, field), p) == Only(StringsOf(older, field), p)
    requires StringsOf(newer, field).Keys == StringsOf(older, field).Keys
    requires field in older && older[field] == Object(map[]) ==> field in newer
    ensures var kept := FromStrings(Only(StringsOf(older, field), p));
            if field in older && older[field] == kept then field in newer && newer[field] == kept
            else
              var patch := if field in older then Object(Diff(older[field].members, kept.members)) else kept;
              Merge(if field in newer then newer[field] else Null, patch) == kept
  {
    var kept := FromStrings(Only(StringsOf(older, field), p));
    var now := if field in newer then newer[field] else Null;
    var was := if field in older then older[field].members else map[];
    var present := if field in newer then newer[field].members else map[];
    assert StringsOf(older, field).Keys == was.Keys && StringsOf(newer, field).Keys == present.Keys;
    SameStrings(older, newer, field, p);
    if field in older && older[field] == kept {
      assert field in newer;
      assert present == kept.members;
    } else {
      var patch := if field in older then Diff(was, kept.members) else kept.members;
      var r := Merge(now, Object(patch)).members;
      forall k ensures (k in r <==> k in kept.members) && (k in r ==> r[k] == kept.members[k]) {
        if field !in older { assert kept.members == map[] && present == map[]; }
      }
      assert r == kept.members;
    }
  }

  lemma SameStrings(older: Members, newer: Members, field: string, p: string -> bool)
    requires field in older ==> IsStrings(older[field])
    requires field in newer ==> IsStrings(newer[field])
    requires Only(StringsOf(newer, field), p) == Only(StringsOf(older, field), p)
    requires StringsOf(newer, field).Keys == StringsOf(older, field).Keys
    ensures forall k :: p(k) && field in newer && k in newer[field].members ==>
              field in older && k in older[field].members && newer[field].members[k] == older[field].members[k]
    ensures forall k :: field in newer && k in newer[field].members ==> field in older && k in older[field].members
    ensures forall k :: field in older && k in older[field].members ==> field in newer && k in newer[field].members
  {
    var was, present := StringsOf(older, field), StringsOf(newer, field);
    forall k | field in newer && k in newer[field].members
      ensures field in older && k in older[field].members
      ensures p(k) ==> newer[field].members[k] == older[field].members[k]
    {
      assert k in present && k in was;
      if p(k) { assert Only(present, p)[k] == Only(was, p)[k]; }
    }
    forall k | field in older && k in older[field].members ensures field in newer && k in newer[field].members {
      assert k in was && k in present;
    }
  }

  lemma MetadataRegenerated(s: Setting, older: Members, newer: Members)
    requires WellFormed(older) && WellFormed(newer)
    requires SameContents(s, older, newer) && NothingNewLeftOut(older, newer)
    ensures HasMetadata(Template(s, older))
    ensures var m, m', tm := older["metadata"].members, newer["metadata"].members,
                             Template(s, older)["metadata"].members;
            Merge(Object(m'), Object(Diff(m, tm))) == Object(tm)
  {
    TemplateMembers(s, older, "metadata");
    TemplateMembers(s, newer, "metadata");
    var m, m', tm := older["metadata"].members, newer["metadata"].members, Template(s, older)["metadata"].members;
    assert Metadata(older) == m && Metadata(newer) == m';
    SameFields(s, older, newer);
    FieldRegenerated(m, m', "labels", s.IsTemplateLabel);
    FieldRegenerated(m, m', "annotations", s.IsTemplateAnnotation);
    var r := Merge(Object(m'), Object(Diff(m, tm))).members;
    forall k ensures (k in r <==> k in tm) && (k in r ==> r[k] == tm[k]) {
      TemplateFields(s, older, k);
      TemplateFields(s, newer, k);
    }
    assert r == tm;
  }

  lemma SameFields(s: Setting, older: Members, newer: Members)
    requires WellFormed(older) && WellFormed(newer) && Template(s, newer) == Template(s, older)
    ensures Only(StringsOf(Metadata(newer), "labels"), s.IsTemplateLabel) ==
            Only(StringsOf(Metadata(older), "labels"), s.IsTemplateLabel)
    ensures Only(StringsOf(Metadata(newer), "annotations"), s.IsTemplateAnnotation) ==
            Only(StringsOf(Metadata(older), "annotations"), s.IsTemplateAnnotation)
  {
    var t, t' := Template(s, older), Template(s, newer);
    assert t["metadata"].members["labels"] == FromStrings(Only(Labels(older), s.IsTemplateLabel));
    assert t'["metadata"].members["labels"] == FromStrings(Only(Labels(newer), s.IsTemplateLabel));
    assert t["metadata"].members["annotations"] == FromStrings(Only(Annotations(older), s.IsTemplateAnnotation));
    assert t'["metadata"].members["annotations"] == FromStrings(Only(Annotations(newer), s.IsTemplateAnnotation));
    FromStringsInjective(Only(Labels(older), s.IsTemplateLabel), Only(Labels(newer), s.IsTemplateLabel));
    FromStringsInjective(Only(Annotations(older), s.IsTemplateAnnotation),
        Only(Annotations(newer), s.IsTemplateAnnotation));
  }

  lemma FromStringsInjective(a: StringMap, b: StringMap)
    requires FromStrings(a) == FromStrings(b)
    ensures a == b
  {
    forall k ensures Lookup(a, k) == Lookup(b, k) {
      assert k in a <==> k in FromStrings(a).members;
      assert k in b <==> k in FromStrings(b).members;
      assert k in a ==> FromStrings(a).members[k] == String(a[k]) && FromStrings(b).members[k] == String(b[k]);
    }
    SameLookups(a, b);
  }

  lemma TemplateRegeneratedFromNewer(s: Setting, older: Members, newer: Members)
    requires WellFormed(older) && WellFormed(newer)
    requires SameContents(s, older, newer) && NothingNewLeftOut(older, newer)
    ensures Merge(Object(newer), Object(Diff(older, Template(s, older)))) == Object(Template(s, older))
  {
    var r := Merge(Object(newer), Object(Diff(older, Template(s, older))));
    forall k ensures SameAt(r.members, Template(s, older), k) { MemberRegenerated(s, older, newer, k); }
    SameEverywhere(r.members, Template(s, older));
  }

  predicate SameAt(a: Members, b: Members, k: string) {
    (k in a <==> k in b) && (k in a ==> a[k] == b[k])
  }

  lemma SameEverywhere(a: Members, b: Members)
    requires forall k :: SameAt(a, b, k)
    ensures a == b
  {
    assert forall k :: k in a ==> SameAt(a, b, k);
    assert forall k :: k in b ==> SameAt(a, b, k);
  }

  lemma MemberRegenerated(s: Setting, older: Members, newer: Members, k: string)
    requires WellFormed(older) && WellFormed(newer)
    requires SameContents(s, older, newer) && NothingNewLeftOut(older, newer)
    ensures SameAt(Merge(Object(newer), Object(Diff(older, Template(s, older)))).members, Template(s, older), k)
  {
    if k == "metadata" {
      MetadataMemberRegenerated(s, older, newer);
    } else {
      OtherMemberRegenerated(s, older, newer, k);
    }
  }

  lemma MetadataMemberRegenerated(s: Setting, older: Members, newer: Members)
    requires WellFormed(older) && WellFormed(newer)
    requires SameContents(s, older, newer) && NothingNewLeftOut(older, newer)
    ensures var t := Template(s, older);
            var r := Merge(Object(newer), Object(Diff(older, t))).members;
            "metadata" in r && "metadata" in t && r["metadata"] == t["metadata"]
  {
    MetadataRegenerated(s, older, newer);
    var m, tm := older["metadata"].members, Template(s, older)["metadata"].members;
    if m == tm {
      DiffOfSame(m);
      MergeNothing(newer["metadata"].members);
    }
  }

  lemma OtherMemberRegenerated(s: Setting, older: Members, newer: Members, k: string)
    requires k != "metadata" && Template(s, newer) == Template(s, older)
    requires "status" in newer ==> "status" in older
    ensures var t := Template(s, older);
            var r := Merge(Object(newer), Object(Diff(older, t))).members;
            (k in r <==> k in t) && (k in r ==> r[k] == t[k])
  {
    TemplateMembers(s, older, k);
    TemplateMembers(s, newer, k);
  }

  lemma LeftOutMeansStale(s: Setting, older: Members, newer: Members)
    requires WellFormed(older) && WellFormed(newer)
    requires Merge(Object(newer), Object(Diff(older, Template(s, older)))) == Object(Template(s, older))
    ensures NothingNewLeftOut(older, newer)
  {
    var t := Template(s, older);
    var patch := Diff(older, t);
    var r := Merge(Object(newer), Object(patch)).members;
    TemplateMembers(s, older, "status");
    assert "status" in newer && "status" !in older ==> "status" !in patch && "status" in r;
    MergedMetadata(s, older, newer);
    var m, m', tm := older["metadata"].members, newer["metadata"].members, t["metadata"].members;
    var r' := Merge(Object(m'), Object(Diff(m, tm))).members;
    assert r' == tm;
    forall k | k in m' && IsRemovedField(k) ensures k in m {
      TemplateFields(s, older, k);
      assert k !in m ==> k in r';
    }
    EmptyFieldKept(s, older, newer, "labels");
    EmptyFieldKept(s, older, newer, "annotations");
  }

  lemma EmptyFieldKept(s: Setting, older: Members, newer: Members, field: string)
    requires WellFormed(older) && WellFormed(newer) && (field == "labels" || field == "annotations")
    requires HasMetadata(Template(s, older))
    requires var m, tm := older["metadata"].members, Template(s, older)["metadata"].members;
             Merge(newer["metadata"], Object(Diff(m, tm))) == Object(tm)
    ensures var m := older["metadata"].members;
            field in m && m[field] == Object(map[]) ==> field in newer["metadata"].members
  {
    var m, m', tm := older["metadata"].members, newer["metadata"].members, Template(s, older)["metadata"].members;
    if field in m && m[field] == Object(map[]) {
      assert StringsOf(m, field) == map[];
      assert tm[field] == FromStrings(map[]) == Object(map[]);
      assert field !in Diff(m, tm);
      assert field in Merge(Object(m'), Object(Diff(m, tm))).members;
    }
  }

  /** A map is in sync with the record of another one that has the same keys, if it has the recorded values. */
  lemma SyncedWithRecord(was: StringMap, now: StringMap, observed: StringMap, federated: StringMap)
    requires forall k :: k in was ==> ValidKey(k)
    ensures Synced(now, federated, Record(was, observed)) <==>
            && now.Keys == was.Keys
            && forall k :: k in was && k in observed ==> now[k] == Value(federated, k)
  {
    ParseOfRecord(was, observed);
    var (fed, other) := Parse(Record(was, observed));
    assert fed + other == was.Keys;
    assert forall k :: k in fed <==> k in was && k in observed;
  }

  lemma StillSynced(s: Setting, older: Members, newer: Members, f: FedObject)
    requires s.Proper() && ValidKeys(older) && Carries(s, older, f)
    requires SameContents(s, older, newer) && APIVersion(newer) == APIVersion(older)
    ensures Synced(Annotations(newer), f.annotations.value, Record(Annotations(older), FederatedAnnotations(s, older)))
    ensures Synced(Labels(newer), f.labels, Record(Labels(older), FederatedLabels(s, older))) <==>
            NoClashingLabel(newer)
  {
    var a, l := FederatedAnnotations(s, older), FederatedLabels(s, older);
    SyncedWithRecord(Annotations(older), Annotations(newer), a, f.annotations.value);
    forall k | k in Annotations(older) && k in a ensures Annotations(newer)[k] == Value(f.annotations.value, k) {
      assert Lookup(f.annotations.value, k) == Some(a[k]) && a[k] == FederatedAnnotations(s, newer)[k];
    }
    SyncedWithRecord(Labels(older), Labels(newer), l, f.labels);
    var version := APIVersion(newer);
    assert l[version] == Kind(newer) by { assert FederatedLabels(s, newer)[version] == Kind(newer); }
    forall k | k in Labels(older) && k in l && k != version ensures Labels(newer)[k] == Value(f.labels, k) {
      assert l[k] == FederatedLabels(s, newer)[k];
    }
  }

  lemma SyncedKeys(s: Setting, older: Members, newer: Members, f: FedObject)
    requires s.Proper() && ValidKeys(older) && Carries(s, older, f)
    requires Synced(Annotations(newer), f.annotations.value, Record(Annotations(older), FederatedAnnotations(s, older)))
    requires Synced(Labels(newer), f.labels, Record(Labels(older), FederatedLabels(s, older)))
    ensures Labels(newer).Keys == Labels(older).Keys && Annotations(newer).Keys == Annotations(older).Keys
  {
    SyncedWithRecord(Annotations(older), Annotations(newer), FederatedAnnotations(s, older), f.annotations.value);
    SyncedWithRecord(Labels(older), Labels(newer), FederatedLabels(s, older), f.labels);
  }

  /** The check on a newer source, exactly: an object that carries what was written for an older source is up to date if
      and only if template, federated labels and federated annotations have stayed the same and so have the keys that
      are in neither; no label clashes with the type; and the source has gained nothing that the template leaves out. */
  lemma UpToDateExactly(s: Setting, older: Members, newer: Members, f: FedObject)
    requires s.Proper() && ValidKeys(older) && WellFormed(older) && WellFormed(newer)
    requires Carries(s, older, f) && PatchReadsBack(s, older)
    ensures IsFederatedTemplateUpToDate(s, newer, f) == Ok(true) <==>
            SameContents(s, older, newer) && NoClashingLabel(newer) && NothingNewLeftOut(older, newer)
  {
    CheckSteps(s, older, newer, f);
    if IsFederatedTemplateUpToDate(s, newer, f) == Ok(true) {
      UpToDateMeansCurrent(s, older, newer, f);
      SyncedKeys(s, older, newer, f);
      SameTypeCurrent(s, older, newer);
      StillSynced(s, older, newer, f);
      LeftOutMeansStale(s, older, newer);
    } else if SameContents(s, older, newer) && NoClashingLabel(newer) && NothingNewLeftOut(older, newer) {
      SameTypeCurrent(s, older, newer);
      TemplateRegeneratedFromNewer(s, older, newer);
      StillSynced(s, older, newer, f);
      assert false;
    }
  }

  /** So the first status a source is given makes its federated object look stale, although the template leaves every
      status out. */
  lemma FirstStatusLooksStale(s: Setting, source: Members, status: Json, f: FedObject)
    requires s.Proper() && ValidKeys(source) && WellFormed(source) && "status" !in source
    requires Carries(s, source, f) && PatchReadsBack(s, source)
    ensures Template(s, source["status" := status]) == Template(s, source)
    ensures IsFederatedTemplateUpToDate(s, source["status" := status], f) != Ok(true)
  {
    var newer := source["status" := status];
    assert Metadata(newer) == Metadata(source);
    assert newer - {"status"} == source - {"status"};
    UpToDateExactly(s, source, newer, f);
  }

  /** How the check ends for any object: it fails on an unreadable template, and on an unreadable patch once both maps
      are in sync; an object without annotations is stale. */
  lemma CheckOutcome(s: Setting, source: Members, f: FedObject)
    ensures var r, a := IsFederatedTemplateUpToDate(s, source, f), Entries(f.annotations);
            var synced := a != map[] && Synced(Annotations(source), a, Value(a, s.observedAnnotationKeys))
                          && Synced(Labels(source), f.labels, Value(a, s.observedLabelKeys));
            var patch := s.decode(Value(a, s.mergePatch));
            && (r.Err? <==> f.template.None? || (synced && !(patch.Some? && patch.value.Object?)))
            && (r == Ok(true) <==>
                  && f.template.Some? && synced && patch.Some? && patch.value.Object?
                  && Merge(Object(source), patch.value) == Object(f.template.value))
  {}

  /** What the check comes to for such an object. */
  lemma CheckSteps(s: Setting, older: Members, newer: Members, f: FedObject)
    requires s.Proper() && Carries(s, older, f) && PatchReadsBack(s, older)
    ensures IsFederatedTemplateUpToDate(s, newer, f) == Ok(true) <==>
            && Synced(Annotations(newer), f.annotations.value,
                 Record(Annotations(older), FederatedAnnotations(s, older)))
            && Synced(Labels(newer), f.labels, Record(Labels(older), FederatedLabels(s, older)))
            && Merge(Object(newer), Object(Diff(older, Template(s, older)))) == Object(Template(s, older))
  {
    BookkeepingValues(s, older, f);
  }
}
