// Sorting runners by slot.
module Sorting {
  import opened Registry

  // Insert by slot, before the first runner of a higher slot.
  function InsertBySlot(r: Runner, rs: seq<Runner>): seq<Runner> {
    if rs == [] || r.slot < rs[0].slot then [r] + rs else [rs[0]] + InsertBySlot(r, rs[1..])
  }

  // A sort of runners by slot: what sort.Slice is called for.
  function SortBySlot(rs: seq<Runner>): seq<Runner> {
    if rs == [] then [] else InsertBySlot(rs[0], SortBySlot(rs[1..]))
  }

  lemma SortedCons(x: Runner, s: seq<Runner>)
    requires SortedBySlot(s) && forall q :: q in multiset(s) ==> x.slot <= q.slot
    ensures SortedBySlot([x] + s)
  {
    forall i, j | 0 <= i < j < |[x] + s| ensures ([x] + s)[i].slot <= ([x] + s)[j].slot {
      assert ([x] + s)[j] == s[j - 1] && s[j - 1] in multiset(s);
    }
  }

  lemma {:induction false} InsertKeeps(r: Runner, rs: seq<Runner>)
    ensures multiset(InsertBySlot(r, rs)) == multiset{r} + multiset(rs)
  {
    if rs != [] && r.slot >= rs[0].slot {
      var tail := InsertBySlot(r, rs[1..]);
      InsertKeeps(r, rs[1..]);
      assert rs == [rs[0]] + rs[1..];
      assert multiset([rs[0]] + tail) == multiset{rs[0]} + multiset(tail);
    }
  }

  lemma {:induction false} InsertSorts(r: Runner, rs: seq<Runner>)
    requires SortedBySlot(rs)
    ensures SortedBySlot(InsertBySlot(r, rs))
  {
    if rs == [] || r.slot < rs[0].slot {
      SortedCons(r, rs);
    } else {
      InsertKeeps(r, rs[1..]);
      InsertSorts(r, rs[1..]);
      forall q | q in multiset{r} + multiset(rs[1..]) ensures rs[0].slot <= q.slot {
        assert q == r || q in rs[1..];
      }
      SortedCons(rs[0], InsertBySlot(r, rs[1..]));
    }
  }

  lemma {:induction false} SortSorts(rs: seq<Runner>)
    ensures IsSortOf(SortBySlot(rs), rs) && |SortBySlot(rs)| == |rs|
  {
    if rs != [] {
      var s := SortBySlot(rs[1..]);
      SortSorts(rs[1..]);
      InsertKeeps(rs[0], s);
      InsertSorts(rs[0], s);
      assert rs == [rs[0]] + rs[1..];
    }
    assert |multiset(SortBySlot(rs))| == |multiset(rs)|;
  }
}
