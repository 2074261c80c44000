/** The text of patch paths (generateTargetPathForPodSpec in `pkg/controllers/override/util.go`), by which batched
    patches are keyed. */
module OverridePath {
  import opened Wrappers

  /** A container's place in the pod spec. */
  datatype Place = Init(index: nat) | Main(index: nat)

  function DigitOf(d: nat): char
    requires d < 10
  {
    (d + 48) as char
  }

  /** The decimal text of an index. */
  function Decimal(n: nat): string {
    if n < 10 then [DigitOf(n)] else Decimal(n / 10) + [DigitOf(n % 10)]
  }

  lemma {:induction false} DecimalInjective(m: nat, n: nat)
    requires Decimal(m) == Decimal(n)
    ensures m == n
  {
    DecimalLast(m);
    DecimalLast(n);
    if m >= 10 && n >= 10 {
      assert Decimal(m / 10) == Decimal(m)[..|Decimal(m)| - 1] == Decimal(n)[..|Decimal(n)| - 1] == Decimal(n / 10);
      DecimalInjective(m / 10, n / 10);
    }
  }

  lemma {:induction false} DecimalLast(n: nat)
    ensures |Decimal(n)| > 0 && Decimal(n)[|Decimal(n)| - 1] == DigitOf(n % 10)
    ensures |Decimal(n)| > 1 <==> n >= 10
  {
    if n >= 10 { DecimalLast(n / 10); }
  }

  function KindName(p: Place): string {
    match p case Init(_) => "initContainers" case Main(_) => "containers"
  }

  /** The path of one field of one container, below the path of the pod spec. */
  function TargetPath(podSpec: string, p: Place, target: string): string {
    podSpec + ['/'] + KindName(p) + ['/'] + Decimal(p.index) + ['/'] + target
  }

  lemma PathExamples()
    ensures TargetPath("/spec", Init(12), "env") == "/spec/initContainers/12/env"
    ensures TargetPath("/spec", Main(3), "args") == "/spec/containers/3/args"
  {
    assert Decimal(12) == "12";
  }

  /** generateTargetPathForPodSpec: `podSpec` is the path of the pod spec for the object's kind, if the kind has one. */
  function GenerateTargetPath(podSpec: Option<string>, p: Place, target: string): Result<string> {
    if podSpec.None? then Err else Ok(TargetPath(podSpec.value, p, target))
  }

  lemma Cancel(before: string, a: string, b: string, after: string)
    requires before + a + after == before + b + after
    ensures a == b
  {
    var x, y := before + a + after, before + b + after;
    assert |a| == |b|;
    assert a == x[|before|..|before| + |a|];
    assert b == y[|before|..|before| + |b|];
  }

  lemma CancelPrefix(before: string, a: string, b: string)
    requires before + a == before + b
    ensures a == b
  {
    Cancel(before, a, b, "");
    assert before + a + "" == before + a;
    assert before + b + "" == before + b;
  }

  lemma Middle(podSpec: string, kind: string, index: string, target: string)
    ensures podSpec + ['/'] + kind + ['/'] + index + ['/'] + target ==
            (podSpec + ['/']) + (kind + ['/'] + index) + (['/'] + target)
  {}

  /** Two containers have the same path exactly when they are the same container: keying patches by path is keying them
      by place. */
  lemma PathsIdentifyContainers(podSpec: string, p: Place, q: Place, target: string)
    ensures TargetPath(podSpec, p, target) == TargetPath(podSpec, q, target) <==> p == q
  {
    if TargetPath(podSpec, p, target) == TargetPath(podSpec, q, target) {
      var a, b := KindName(p) + ['/'] + Decimal(p.index), KindName(q) + ['/'] + Decimal(q.index);
      Middle(podSpec, KindName(p), Decimal(p.index), target);
      Middle(podSpec, KindName(q), Decimal(q.index), target);
      Cancel(podSpec + ['/'], a, b, ['/'] + target);
      SamePlace(p, q);
    }
  }

  lemma SamePlace(p: Place, q: Place)
    requires KindName(p) + ['/'] + Decimal(p.index) == KindName(q) + ['/'] + Decimal(q.index)
    ensures p == q
  {
    KindTells(p);
    KindTells(q);
    var kind, other := KindName(p), KindName(q);
    assert kind[0] == (kind + ['/'] + Decimal(p.index))[0] == (other + ['/'] + Decimal(q.index))[0] == other[0];
    CancelPrefix(kind + ['/'], Decimal(p.index), Decimal(q.index));
    DecimalInjective(p.index, q.index);
  }

  lemma KindTells(p: Place)
    ensures |KindName(p)| > 0 && (KindName(p)[0] == 'i' <==> p.Init?)
  {}
}
