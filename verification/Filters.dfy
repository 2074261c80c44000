/** What it means to filter a list, whatever loop does it. */
module Filters {

  function Kept<T>(all: seq<T>, keep: T -> bool): seq<T> {
    if all == [] then []
    else
      var n := |all| - 1;
      if keep(all[n]) then Kept(all[..n], keep) + [all[n]] else Kept(all[..n], keep)
  }

  /** What is kept are exactly the elements that `keep` holds of, as often as they were there, and in their order: the
      parts of a list are filtered one by one. */
  lemma {:induction false} KeptContents<T>(all: seq<T>, keep: T -> bool, x: T)
    ensures multiset(Kept(all, keep))[x] == if keep(x) then multiset(all)[x] else 0
  {
    if all != [] {
      var n := |all| - 1;
      KeptContents(all[..n], keep, x);
      assert all == all[..n] + [all[n]];
    }
  }

  lemma {:induction false} KeptConcat<T>(a: seq<T>, b: seq<T>, keep: T -> bool)
    ensures Kept(a + b, keep) == Kept(a, keep) + Kept(b, keep)
    decreases |b|
  {
    if b == [] {
      assert a + b == a;
    } else {
      var n := |b| - 1;
      KeptConcat(a, b[..n], keep);
      assert (a + b)[..|a + b| - 1] == a + b[..n];
    }
  }
}
