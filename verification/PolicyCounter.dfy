/** The policy reference counter (`pkg/controllers/policyrc/counter.go`): how many references the known objects hold to
    each policy, kept up to date one object at a time. */
module PolicyCounter {

  datatype QualifiedName = QualifiedName(namespace: string, name: string)
  type ObjectKey = QualifiedName
  type PolicyKey = QualifiedName
  type Known = map<ObjectKey, seq<PolicyKey>>

  /** Every reference of every known object. */
  ghost function Total(known: Known): multiset<PolicyKey> {
    if known == map[] then multiset{}
    else var o :| o in known; multiset(known[o]) + Total(known - {o})
  }

  lemma {:induction false} TotalSplit(known: Known, obj: ObjectKey)
    requires obj in known
    ensures Total(known) == multiset(known[obj]) + Total(known - {obj})
  {
    var o :| o in known && Total(known) == multiset(known[o]) + Total(known - {o});
    if o != obj {
      TotalSplit(known - {o}, obj);
      TotalSplit(known - {obj}, o);
      assert known - {o} - {obj} == known - {obj} - {o};
    }
  }

  function Sum(listing: seq<ObjectKey>, known: Known, p: PolicyKey): nat
    requires forall o :: o in listing ==> o in known
  {
    if listing == [] then 0 else multiset(known[listing[0]])[p] + Sum(listing[1..], known, p)
  }

  /** For each policy the total is the sum of its multiplicities over the objects, in whatever order they are listed. */
  lemma {:induction false} TotalIsSum(known: Known, listing: seq<ObjectKey>, p: PolicyKey)
    requires forall o :: o in listing <==> o in known
    requires forall i, j :: 0 <= i < j < |listing| ==> listing[i] != listing[j]
    ensures Total(known)[p] == Sum(listing, known, p)
  {
    if listing == [] {
      assert known.Keys == {};
    } else {
      var o, rest := listing[0], known - {listing[0]};
      assert o in listing;
      TotalSplit(known, o);
      forall x ensures x in listing[1..] <==> x in rest {
        assert x in listing <==> x == o || x in listing[1..];
      }
      TotalIsSum(rest, listing[1..], p);
      SumElsewhere(listing[1..], known, rest, p);
    }
  }

  lemma {:induction false} SumElsewhere(listing: seq<ObjectKey>, a: Known, b: Known, p: PolicyKey)
    requires forall o :: o in listing ==> o in a && o in b && a[o] == b[o]
    ensures Sum(listing, a, p) == Sum(listing, b, p)
  {
    if listing != [] {
      assert listing[0] in listing;
      SumElsewhere(listing[1..], a, b, p);
    }
  }

  /** The references known after an object reports `policies`. */
  function Put(known: Known, obj: ObjectKey, policies: seq<PolicyKey>): Known {
    if policies == [] then known - {obj} else known[obj := policies]
  }

  function References(known: Known, obj: ObjectKey): seq<PolicyKey> {
    if obj in known then known[obj] else []
  }

  /** Conservation: an update takes out exactly the object's previous references and puts in its new ones. */
  lemma TotalAfterPut(known: Known, obj: ObjectKey, policies: seq<PolicyKey>)
    ensures multiset(References(known, obj)) <= Total(known)
    ensures Total(Put(known, obj, policies)) ==
            Total(known) - multiset(References(known, obj)) + multiset(policies)
  {
    var after := Put(known, obj, policies);
    if obj in known { TotalSplit(known, obj); } else { assert known - {obj} == known; }
    if obj in after {
      TotalSplit(after, obj);
      assert after - {obj} == known - {obj};
    }
  }

  datatype Observation = Observation(obj: ObjectKey, policies: seq<PolicyKey>)

  function After(updates: seq<Observation>): Known {
    if updates == [] then map[]
    else
      var last := updates[|updates| - 1];
      Put(After(updates[..|updates| - 1]), last.obj, last.policies)
  }

  /** After a run of updates each object's references are those of its latest update. */
  lemma {:induction false} AfterHoldsLatest(updates: seq<Observation>, i: nat)
    requires i < |updates| && forall k :: i < k < |updates| ==> updates[k].obj != updates[i].obj
    ensures References(After(updates), updates[i].obj) == updates[i].policies
  {
    var n := |updates| - 1;
    if i < n { AfterHoldsLatest(updates[..n], i); }
  }

  class Counter {
    var knownPolicies: Known
    var policyCounts: map<PolicyKey, int>

    function CountOf(p: PolicyKey): int
      reads this`policyCounts
    {
      if p in policyCounts then policyCounts[p] else 0
    }

    /** Every count is the number of references the known objects hold. */
    ghost predicate Valid()
      reads this
    {
      forall p :: CountOf(p) == Total(knownPolicies)[p]
    }

    constructor ()
      ensures Valid() && knownPolicies == map[] && policyCounts == map[]
    {
      knownPolicies, policyCounts := map[], map[];
    }

    method Decrement(previous: seq<PolicyKey>, ghost total: multiset<PolicyKey>) returns (flagged: seq<PolicyKey>)
      requires multiset(previous) <= total
      requires forall p :: CountOf(p) == total[p]
      modifies this`policyCounts
      ensures flagged == previous
      ensures forall p :: CountOf(p) == (total - multiset(previous))[p]
    {
      flagged := [];
      for i := 0 to |previous|
        invariant flagged == previous[..i]
        invariant forall p :: CountOf(p) + multiset(previous[..i])[p] == total[p]
      {
        var policy := previous[i];
        assert previous[..i + 1] == previous[..i] + [policy];
        PrefixCount(previous, i);
        assert policy in total by { assert policy in previous; assert policy in multiset(previous); }
        policyCounts := policyCounts[policy := CountOf(policy) - 1];
        if policyCounts[policy] < 0 {
          // the panic
          assert false;
        }
        flagged := flagged + [policy];
      }
      assert previous[..|previous|] == previous;
    }

    method Increment(policies: seq<PolicyKey>, ghost total: multiset<PolicyKey>)
      requires forall p :: CountOf(p) == total[p]
      modifies this`policyCounts
      ensures forall p :: CountOf(p) == (total + multiset(policies))[p]
    {
      for i := 0 to |policies|
        invariant forall p :: CountOf(p) == total[p] + multiset(policies[..i])[p]
      {
        assert policies[..i + 1] == policies[..i] + [policies[i]];
        policyCounts := policyCounts[policies[i] := CountOf(policies[i]) + 1];
      }
      assert policies[..|policies|] == policies;
    }

    /** Observe the policies an object references now. The counts stay exact, the panic is unreachable, and the policies
        handed to the flag callback are the previous ones followed by the new ones: every policy whose count changed is
        among them. */
    method Update(obj: ObjectKey, policies: seq<PolicyKey>) returns (flagged: seq<PolicyKey>)
      requires Valid()
      modifies this
      ensures Valid() && knownPolicies == Put(old(knownPolicies), obj, policies)
      ensures flagged == References(old(knownPolicies), obj) + policies
      ensures forall p ::
                CountOf(p) == old(CountOf(p)) - multiset(References(old(knownPolicies), obj))[p] + multiset(policies)[p]
      ensures forall p :: CountOf(p) != old(CountOf(p)) ==> p in flagged
    {
      TotalAfterPut(knownPolicies, obj, policies);
      ghost var total := Total(knownPolicies);
      var previous := References(knownPolicies, obj);
      knownPolicies := Put(knownPolicies, obj, policies);
      flagged := Decrement(previous, total);
      Increment(policies, total - multiset(previous));
      flagged := flagged + policies;
      forall p ensures p in multiset(previous) ==> p in flagged { assert p in multiset(previous) ==> p in previous; }
      forall p ensures p in multiset(policies) ==> p in flagged { assert p in multiset(policies) ==> p in policies; }
    }

    method GetPolicyCounts(keys: seq<PolicyKey>) returns (results: seq<int>)
      requires Valid()
      ensures |results| == |keys|
      ensures forall i :: 0 <= i < |keys| ==> results[i] == Total(knownPolicies)[keys[i]]
    {
      results := [];
      for i := 0 to |keys|
        invariant |results| == i
        invariant forall k :: 0 <= k < i ==> results[k] == Total(knownPolicies)[keys[k]]
      {
        results := results + [CountOf(keys[i])];
      }
    }
  }

  lemma PrefixCount(s: seq<PolicyKey>, i: nat)
    requires i < |s|
    ensures multiset(s[..i])[s[i]] < multiset(s)[s[i]]
  {
    assert s == s[..i] + ([s[i]] + s[i + 1..]);
    assert multiset(s) == multiset(s[..i]) + multiset([s[i]] + s[i + 1..]);
  }
}
