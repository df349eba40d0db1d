// Types and counting facts that the other modules share.
module Basics {
  datatype Option<+T> = None | Some(value: T)

  // The naturals below n, as a set.
  function UpTo(n: nat): (s: set<nat>)
    ensures forall k: nat :: k in s <==> k < n
    ensures |s| == n
  {
    if n == 0 then {} else UpTo(n - 1) + {n - 1}
  }

  // A smaller finite set cannot contain a larger one.
  lemma {:induction false} SubsetSize<T>(a: set<T>, b: set<T>)
    requires a <= b
    ensures |a| <= |b|
  {
    if a == {} {
    } else {
      var x :| x in a;
      SubsetSize(a - {x}, b - {x});
    }
  }

  function Elements<T>(v: seq<T>): (s: set<T>) {
    set x | x in v
  }

  // Pigeonhole: n pairwise different naturals below n take every value below n.
  lemma {:induction false} DistinctValuesSize(v: seq<nat>)
    requires forall i, j :: 0 <= i < j < |v| ==> v[i] != v[j]
    ensures |Elements(v)| == |v|
  {
    if v != [] {
      var n := |v| - 1;
      var w := v[..n];
      DistinctValuesSize(w);
      assert v == w + [v[n]];
      assert v[n] !in w;
      assert Elements(v) == Elements(w) + {v[n]};
    }
  }

  lemma DistinctValuesCover(v: seq<nat>, k: nat)
    requires forall i, j :: 0 <= i < j < |v| ==> v[i] != v[j]
    requires forall i :: 0 <= i < |v| ==> v[i] < |v|
    requires k < |v|
    ensures k in v
  {
    DistinctValuesSize(v);
    if k !in v {
      assert Elements(v) <= UpTo(|v|) - {k};
      SubsetSize(Elements(v), UpTo(|v|) - {k});
      assert false;
    }
  }
}
