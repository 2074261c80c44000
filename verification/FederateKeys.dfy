/** The label and annotation keys of the federate controller (`pkg/controllers/federate/util.go`). */
module FederateKeys {
  import opened Wrappers
  import opened MergePatch
  import opened Federate

  const PREFIX := "kubeadmiral.io/"
  const FEDERATE_CONTROLLER_PREFIX := "federate.controller." + PREFIX

  const FEDERATED_ANNOTATION_NAMES: set<string> := {
    "retain-replicas", "scheduling-mode", "sticky-cluster", "no-auto-propagation", "orphan", "conflict-resolution",
    "clusters-to-adopt", "tolerations", "placements", "clusterSelector", "affinity", "maxClusters", "no-scheduling",
    "follows-object", "followers", "disable-following", "migration-configuration", "dry-run"
  }

  const IGNORED_ANNOTATION_NAMES: set<string> := {
    "latest-replicaset-digests", "applied-migration-configuration", "scheduling"
  }

  const FEDERATED_LABEL_NAMES: set<string> := {
    "propagation-policy-name", "cluster-propagation-policy-name", "override-policy-name", "cluster-override-policy-name"
  }

  function Prefixed(names: set<string>): set<string> {
    set n | n in names :: PREFIX + n
  }

  const OBSERVED_ANNOTATION_KEYS := FEDERATE_CONTROLLER_PREFIX + "observed-annotations"
  const OBSERVED_LABEL_KEYS := FEDERATE_CONTROLLER_PREFIX + "observed-labels"
  const MERGE_PATCH := FEDERATE_CONTROLLER_PREFIX + "template-generator-merge-patch"
  const PENDING_CONTROLLERS := PREFIX + "pending-controllers"

  function KubeAdmiral(encode: Json -> string, decode: string -> Option<Json>): Setting {
    Setting(Prefixed(FEDERATED_ANNOTATION_NAMES), Prefixed(IGNORED_ANNOTATION_NAMES), Prefixed(FEDERATED_LABEL_NAMES),
      OBSERVED_ANNOTATION_KEYS, OBSERVED_LABEL_KEYS, MERGE_PATCH, PENDING_CONTROLLERS, encode, decode)
  }

  lemma NotPrefixed(names: set<string>, k: string)
    requires k != "" && k[0] == 'f'
    ensures k !in Prefixed(names)
  {
    forall n | n in names ensures PREFIX + n != k { assert (PREFIX + n)[0] == 'k'; }
  }

  lemma PendingIsNotFederated()
    ensures PENDING_CONTROLLERS !in Prefixed(FEDERATED_ANNOTATION_NAMES)
  {
    var p := "pending-controllers";
    forall n | n in FEDERATED_ANNOTATION_NAMES ensures n != p {
      assert n[0] != p[0] || |n| != |p|;
    }
    forall n | n in FEDERATED_ANNOTATION_NAMES ensures PREFIX + n != PREFIX + p {
      assert n == (PREFIX + n)[|PREFIX|..] && p == (PREFIX + p)[|PREFIX|..];
    }
  }

  /** The keys the theorems of module Federate are about. */
  lemma KubeAdmiralIsProper(encode: Json -> string, decode: string -> Option<Json>)
    ensures KubeAdmiral(encode, decode).Proper()
  {
    var names := FEDERATED_ANNOTATION_NAMES;
    assert FEDERATE_CONTROLLER_PREFIX[0] == 'f';
    assert OBSERVED_ANNOTATION_KEYS[0] == 'f' && OBSERVED_LABEL_KEYS[0] == 'f' && MERGE_PATCH[0] == 'f';
    NotPrefixed(names, OBSERVED_ANNOTATION_KEYS);
    NotPrefixed(names, OBSERVED_LABEL_KEYS);
    NotPrefixed(names, MERGE_PATCH);
    PendingIsNotFederated();
    assert PENDING_CONTROLLERS[0] == 'k';
    assert |OBSERVED_ANNOTATION_KEYS| == 55 && |OBSERVED_LABEL_KEYS| == 50 && |MERGE_PATCH| == 65;
  }
}
