// The per-service list of instance states kept by the store
// (internal/state/store.go): its entries, and the three operations on it as
// functions of the list. InstanceTable in Store.dfy runs them on an array.
module InstanceList {
  import opened Basics

  datatype Status = Running | Stopped | Errored | Starting | Draining

  datatype InstanceState = InstanceState(index: nat, slot: nat, status: Status, addr: string)

  // GetInstanceState: the first entry with that index.
  function Lookup(l: seq<InstanceState>, index: nat): (r: Option<InstanceState>)
    ensures r.Some? ==> r.value in l && r.value.index == index
  {
    if l == [] then None
    else if l[0].index == index then Some(l[0])
    else Lookup(l[1..], index)
  }

  // SetInstanceState: overwrite the first entry with that index, or append.
  function Upsert(l: seq<InstanceState>, st: InstanceState): seq<InstanceState> {
    if l == [] then [st]
    else if l[0].index == st.index then [st] + l[1..]
    else [l[0]] + Upsert(l[1..], st)
  }

  // RemoveInstanceState: drop every entry with that index, keep the order.
  function Without(l: seq<InstanceState>, index: nat): seq<InstanceState> {
    if l == [] then []
    else (if l[0].index == index then [] else [l[0]]) + Without(l[1..], index)
  }

  ghost predicate UniqueKeys(l: seq<InstanceState>) {
    forall i, j :: 0 <= i < j < |l| ==> l[i].index != l[j].index
  }

  function Keys(l: seq<InstanceState>): (s: set<nat>) {
    set st | st in l :: st.index
  }

  lemma {:induction false} KeysAreLookups(l: seq<InstanceState>, index: nat)
    ensures index in Keys(l) <==> Lookup(l, index).Some?
  {
    if l != [] {
      KeysAreLookups(l[1..], index);
      assert l == [l[0]] + l[1..];
      assert index in Keys(l) <==> l[0].index == index || index in Keys(l[1..]);
    }
  }

  // Upsert is map update, seen through Lookup.
  lemma {:induction false} LookupUpsert(l: seq<InstanceState>, st: InstanceState, index: nat)
    ensures Lookup(Upsert(l, st), index) == if index == st.index then Some(st) else Lookup(l, index)
  {
    if l != [] && l[0].index != st.index {
      LookupUpsert(l[1..], st, index);
      assert Upsert(l, st)[1..] == Upsert(l[1..], st);
    }
  }

  // Without is map removal, seen through Lookup.
  lemma {:induction false} LookupWithout(l: seq<InstanceState>, gone: nat, index: nat)
    ensures Lookup(Without(l, gone), index) == if index == gone then None else Lookup(l, index)
  {
    if l != [] {
      LookupWithout(l[1..], gone, index);
      if l[0].index == gone {
        assert Without(l, gone) == Without(l[1..], gone);
      } else {
        assert Without(l, gone)[1..] == Without(l[1..], gone);
      }
    }
  }

  lemma KeysUpsert(l: seq<InstanceState>, st: InstanceState)
    ensures Keys(Upsert(l, st)) == Keys(l) + {st.index}
  {
    forall i: nat ensures i in Keys(Upsert(l, st)) <==> i in Keys(l) + {st.index} {
      KeysAreLookups(l, i);
      KeysAreLookups(Upsert(l, st), i);
      LookupUpsert(l, st, i);
    }
  }

  lemma KeysWithout(l: seq<InstanceState>, gone: nat)
    ensures Keys(Without(l, gone)) == Keys(l) - {gone}
  {
    forall i: nat ensures i in Keys(Without(l, gone)) <==> i in Keys(l) - {gone} {
      KeysAreLookups(l, i);
      KeysAreLookups(Without(l, gone), i);
      LookupWithout(l, gone, i);
    }
  }

  lemma UniqueCons(st: InstanceState, l: seq<InstanceState>)
    ensures UniqueKeys([st] + l) <==> UniqueKeys(l) && st.index !in Keys(l)
  {
    var m := [st] + l;
    assert m[1..] == l;
    if UniqueKeys(m) {
      forall i, j | 0 <= i < j < |l| ensures l[i].index != l[j].index {
        assert m[i + 1] == l[i] && m[j + 1] == l[j];
      }
      forall k | 0 <= k < |l| ensures l[k].index != st.index {
        assert m[k + 1] == l[k] && m[0] == st;
      }
    }
    if UniqueKeys(l) && st.index !in Keys(l) {
      forall i, j | 0 <= i < j < |m| ensures m[i].index != m[j].index {
        assert m[j] == l[j - 1] && l[j - 1] in l;
        if i > 0 { assert m[i] == l[i - 1]; }
      }
    }
  }

  lemma {:induction false} UniqueUpsert(l: seq<InstanceState>, st: InstanceState)
    requires UniqueKeys(l)
    ensures UniqueKeys(Upsert(l, st))
  {
    if l != [] {
      assert l == [l[0]] + l[1..];
      UniqueCons(l[0], l[1..]);
      if l[0].index == st.index {
        UniqueCons(st, l[1..]);
      } else {
        UniqueUpsert(l[1..], st);
        KeysUpsert(l[1..], st);
        UniqueCons(l[0], Upsert(l[1..], st));
      }
    }
  }

  lemma {:induction false} UniqueWithout(l: seq<InstanceState>, gone: nat)
    requires UniqueKeys(l)
    ensures UniqueKeys(Without(l, gone))
  {
    if l != [] {
      assert l == [l[0]] + l[1..];
      UniqueCons(l[0], l[1..]);
      UniqueWithout(l[1..], gone);
      KeysWithout(l[1..], gone);
      if l[0].index != gone {
        UniqueCons(l[0], Without(l[1..], gone));
      } else {
        assert Without(l, gone) == Without(l[1..], gone);
      }
    }
  }

  // Writing an entry that is then removed leaves nothing of the write.
  lemma {:induction false} WithoutUpsert(l: seq<InstanceState>, st: InstanceState)
    ensures Without(Upsert(l, st), st.index) == Without(l, st.index)
  {
    if l != [] {
      if l[0].index == st.index {
        assert ([st] + l[1..])[1..] == l[1..];
      } else {
        WithoutUpsert(l[1..], st);
        assert Upsert(l, st)[1..] == Upsert(l[1..], st);
      }
    }
  }

  lemma {:induction false} UpsertMissing(l: seq<InstanceState>, st: InstanceState)
    requires forall k :: 0 <= k < |l| ==> l[k].index != st.index
    ensures Upsert(l, st) == l + [st]
  {
    if l != [] {
      UpsertMissing(l[1..], st);
    }
  }
}
