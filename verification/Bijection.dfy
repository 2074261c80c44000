/** A one-to-one map kept in both directions (`pkg/util/bijection/bijection.go`). */
module Bijection {
  import opened Wrappers

  ghost predicate Inverse<A(!new), B(!new)>(forward: map<A, B>, backward: map<B, A>) {
    && (forall a :: a in forward ==> forward[a] in backward && backward[forward[a]] == a)
    && (forall b :: b in backward ==> backward[b] in forward && forward[backward[b]] == b)
  }

  class Bijection<T1(==,!new), T2(==,!new)> {
    var t1ToT2: map<T1, T2>
    var t2ToT1: map<T2, T1>

    ghost predicate Valid()
      reads this
    {
      Inverse(t1ToT2, t2ToT1)
    }

    constructor ()
      ensures Valid() && t1ToT2 == map[] && t2ToT1 == map[]
    {
      t1ToT2, t2ToT1 := map[], map[];
    }

    method LookupByT1(key: T1) returns (value: Option<T2>)
      ensures value.Some? <==> key in t1ToT2
      ensures value.Some? ==> t1ToT2[key] == value.value
      ensures Valid() && value.Some? ==> value.value in t2ToT1 && t2ToT1[value.value] == key
      ensures Valid() && value.None? ==> forall b :: b in t2ToT1 ==> t2ToT1[b] != key
    {
      value := if key in t1ToT2 then Some(t1ToT2[key]) else None;
    }

    method LookupByT2(key: T2) returns (value: Option<T1>)
      requires Valid()
      ensures value.Some? ==> value.value in t1ToT2 && t1ToT2[value.value] == key
      ensures value.None? ==> forall a :: a in t1ToT2 ==> t1ToT2[a] != key
    {
      value := if key in t2ToT1 then Some(t2ToT1[key]) else None;
    }

    /** Fails, changing nothing, exactly when either side is already mapped. */
    method Add(t1: T1, t2: T2) returns (ok: bool)
      requires Valid()
      modifies this
      ensures Valid()
      ensures ok <==> t1 !in old(t1ToT2) && forall a :: a in old(t1ToT2) ==> old(t1ToT2)[a] != t2
      ensures t1ToT2 == if ok then old(t1ToT2)[t1 := t2] else old(t1ToT2)
    {
      if t1 in t1ToT2 { return false; }
      if t2 in t2ToT1 { return false; }
      t1ToT2, t2ToT1 := t1ToT2[t1 := t2], t2ToT1[t2 := t1];
      return true;
    }

    method DeleteT1(key: T1) returns (found: bool)
      requires Valid()
      modifies this
      ensures Valid()
      ensures found <==> key in old(t1ToT2)
      ensures t1ToT2 == old(t1ToT2) - {key}
    {
      if key !in t1ToT2 { return false; }
      t1ToT2, t2ToT1 := t1ToT2 - {key}, t2ToT1 - {t1ToT2[key]};
      return true;
    }

    method DeleteT2(key: T2) returns (found: bool)
      requires Valid()
      modifies this
      ensures Valid()
      ensures found <==> exists a :: a in old(t1ToT2) && old(t1ToT2)[a] == key
      ensures t1ToT2 == map a | a in old(t1ToT2) && old(t1ToT2)[a] != key :: old(t1ToT2)[a]
    {
      if key !in t2ToT1 { return false; }
      t1ToT2, t2ToT1 := t1ToT2 - {t2ToT1[key]}, t2ToT1 - {key};
      return true;
    }
  }
}
