// The store of internal/state/store.go: the instance-state list on its backing
// array, and the service IDs.
module Store {
  import opened Basics
  import opened InstanceList
  import opened Text

  // A service's instance states: the first `len` elements of a backing array.
  class InstanceTable {
    var data: array<InstanceState>
    var len: nat

    ghost predicate Valid()
      reads this
    {
      len <= data.Length
    }

    function Contents(): seq<InstanceState>
      requires Valid()
      reads this, data
    {
      data[..len]
    }

    constructor ()
      ensures Valid() && Contents() == [] && fresh(data)
    {
      data := new InstanceState[0];
      len := 0;
    }

    method Get(index: nat) returns (r: Option<InstanceState>)
      requires Valid()
      ensures r == Lookup(Contents(), index)
      ensures match r
              case None => forall k :: 0 <= k < |Contents()| ==> Contents()[k].index != index
              case Some(st) => exists k :: 0 <= k < |Contents()| && Contents()[k] == st && st.index == index &&
                                           forall j :: 0 <= j < k ==> Contents()[j].index != index
    {
      for i := 0 to len
        invariant Lookup(data[..len], index) == Lookup(data[i..len], index)
        invariant forall k :: 0 <= k < i ==> data[k].index != index
      {
        assert data[i..len][1..] == data[i + 1..len];
        if data[i].index == index {
          assert Contents()[i] == data[i];
          return Some(data[i]);
        }
      }
      return None;
    }

    // Overwrites the first entry with that index in place, or appends.
    method Set(st: InstanceState)
      requires Valid()
      modifies this, data
      ensures Valid() && (data == old(data) || fresh(data))
      ensures Contents() == Upsert(old(Contents()), st)
    {
      for i := 0 to len
        invariant len == old(len) && data == old(data) && data[..] == old(data[..])
        invariant forall k :: 0 <= k < i ==> data[k].index != st.index
      {
        if data[i].index == st.index {
          UpsertFound(data[..len], st, i);
          data[i] := st;
          return;
        }
      }
      UpsertMissing(data[..len], st);
      if len == data.Length {
        var wider := new InstanceState[2 * len + 1](k requires 0 <= k < 2 * len + 1 reads this, data =>
          if k < len && len <= data.Length then data[k] else st);
        assert wider[..len] == data[..len];
        data := wider;
      }
      data[len] := st;
      len := len + 1;
    }

    // Compacts the array it reads from: the kept entries move to the front.
    method Remove(index: nat)
      requires Valid()
      modifies this`len, data
      ensures Valid() && data == old(data)
      ensures Contents() == Without(old(Contents()), index)
    {
      hide Without;
      ghost var was := data[..len];
      WithoutNothing(index);
      var out := 0;
      for i := 0 to len
        invariant out <= i && len == old(len) && data == old(data)
        invariant data[i..len] == was[i..]
        invariant data[..out] == Without(was[..i], index)
      {
        var st := data[i];
        assert st == data[i..len][0] == was[i];
        assert was[..i + 1] == was[..i] + [st];
        WithoutSnoc(was[..i], st, index);
        if st.index != index {
          data[out] := st;
          out := out + 1;
        }
      }
      assert was[..len] == was;
      len := out;
    }
  }

  lemma WithoutNothing(gone: nat)
    ensures Without([], gone) == []
  {
  }

  lemma {:induction false} WithoutSnoc(l: seq<InstanceState>, st: InstanceState, gone: nat)
    ensures Without(l + [st], gone) == Without(l, gone) + (if st.index == gone then [] else [st])
  {
    if l == [] {
      assert l + [st] == [st];
    } else {
      WithoutSnoc(l[1..], st, gone);
      assert (l + [st])[1..] == l[1..] + [st];
    }
  }

  lemma {:induction false} UpsertFound(l: seq<InstanceState>, st: InstanceState, i: nat)
    requires i < |l| && l[i].index == st.index && forall k :: 0 <= k < i ==> l[k].index != st.index
    ensures Upsert(l, st) == l[i := st]
  {
    if i > 0 {
      UpsertFound(l[1..], st, i - 1);
    }
  }

  // ---- the list is a map from indices to states ----

  function AsMap(l: seq<InstanceState>): map<nat, InstanceState> {
    map i | i in Keys(l) :: LookupKey(l, i)
  }

  function LookupKey(l: seq<InstanceState>, i: nat): InstanceState
    requires i in Keys(l)
  {
    KeysAreLookups(l, i);
    Lookup(l, i).value
  }

  // On lists with one entry per index, which both operations keep, setting is
  // map update and removing is map removal, and every entry is found.
  lemma TableIsMap(l: seq<InstanceState>, st: InstanceState, gone: nat)
    requires UniqueKeys(l)
    ensures UniqueKeys(Upsert(l, st)) && AsMap(Upsert(l, st)) == AsMap(l)[st.index := st]
    ensures UniqueKeys(Without(l, gone)) && AsMap(Without(l, gone)) == AsMap(l) - {gone}
    ensures |AsMap(l)| == |l|
  {
    hide Upsert, Without, Lookup, UniqueKeys;
    UniqueUpsert(l, st);
    UniqueWithout(l, gone);
    UpsertAsMap(l, st);
    WithoutAsMap(l, gone);
    KeyCount(l);
    assert AsMap(l).Keys == Keys(l);
  }

  lemma UpsertAsMap(l: seq<InstanceState>, st: InstanceState)
    ensures AsMap(Upsert(l, st)) == AsMap(l)[st.index := st]
  {
    hide Upsert, Lookup;
    KeysUpsert(l, st);
    forall i | i in Keys(l) + {st.index} ensures AsMap(Upsert(l, st))[i] == AsMap(l)[st.index := st][i] {
      LookupUpsert(l, st, i);
    }
  }

  lemma WithoutAsMap(l: seq<InstanceState>, gone: nat)
    ensures AsMap(Without(l, gone)) == AsMap(l) - {gone}
  {
    hide Without, Lookup;
    KeysWithout(l, gone);
    forall i | i in Keys(l) - {gone} ensures AsMap(Without(l, gone))[i] == (AsMap(l) - {gone})[i] {
      LookupWithout(l, gone, i);
    }
  }

  lemma {:induction false} KeyCount(l: seq<InstanceState>)
    requires UniqueKeys(l)
    ensures |Keys(l)| == |l|
  {
    if l == [] {
      assert Keys(l) == {};
    } else {
      assert l == [l[0]] + l[1..];
      UniqueCons(l[0], l[1..]);
      KeyCount(l[1..]);
      assert Keys(l) == {l[0].index} + Keys(l[1..]);
    }
  }

  // Removing keeps the other entries in their order.
  lemma {:induction false} WithoutKeepsOrder(l: seq<InstanceState>, gone: nat, i: nat, j: nat) returns (a: nat, b: nat)
    requires i < j < |l| && l[i].index != gone && l[j].index != gone
    ensures a < b < |Without(l, gone)| && Without(l, gone)[a] == l[i] && Without(l, gone)[b] == l[j]
  {
    var d := if l[0].index == gone then 0 else 1;
    if i > 0 {
      a, b := WithoutKeepsOrder(l[1..], gone, i - 1, j - 1);
      a, b := a + d, b + d;
    } else {
      b := WithoutKeeps(l[1..], gone, j - 1);
      a, b := 0, b + d;
    }
  }

  lemma {:induction false} WithoutKeeps(l: seq<InstanceState>, gone: nat, i: nat) returns (a: nat)
    requires i < |l| && l[i].index != gone
    ensures a < |Without(l, gone)| && Without(l, gone)[a] == l[i]
  {
    if i == 0 {
      a := 0;
    } else {
      a := WithoutKeeps(l[1..], gone, i - 1);
      if l[0].index != gone { a := a + 1; }
    }
  }

  // ---- service IDs ----

  // The IDs of the registered services, by name.
  type Ids = map<string, int>

  ghost predicate IsLeastFree(ids: Ids, id: int) {
    id >= 0 && id !in ids.Values && forall k :: 0 <= k < id ==> k in ids.Values
  }

  lemma {:induction false} ValueCount(ids: Ids)
    ensures |ids.Values| <= |ids|
    decreases |ids|
  {
    if ids == map[] {
      assert ids.Values == {};
    } else {
      var n :| n in ids;
      var rest := ids - {n};
      assert rest.Keys == ids.Keys - {n};
      ValueCount(rest);
      assert ids.Values <= rest.Values + {ids[n]} by {
        forall v | v in ids.Values ensures v in rest.Values + {ids[n]} {
          var m :| m in ids && ids[m] == v;
          if m != n { assert rest[m] == v; }
        }
      }
      SubsetSize(ids.Values, rest.Values + {ids[n]});
    }
  }

  // Pigeonhole: the search for a free ID stops within the number of services.
  lemma FreeIdBound(ids: Ids, id: nat)
    requires forall k :: 0 <= k < id ==> k in ids.Values
    ensures id <= |ids|
  {
    ValueCount(ids);
    var below: set<int> := UpTo(id);
    SubsetSize(below, ids.Values);
  }

  method NextFreeID(ids: Ids) returns (id: nat)
    ensures IsLeastFree(ids, id) && id <= |ids|
  {
    var used: set<int> := {};
    var names := ids.Keys;
    while names != {}
      invariant names <= ids.Keys
      invariant used == set n | n in ids && n !in names :: ids[n]
      decreases names
    {
      var n :| n in names;
      names := names - {n};
      used := used + {ids[n]};
    }
    assert used == ids.Values;
    id := 0;
    FreeIdBound(ids, 0);
    while id in used
      invariant id <= |ids| && forall k :: 0 <= k < id ==> k in ids.Values
      decreases |ids| - id
    {
      FreeIdBound(ids, id + 1);
      id := id + 1;
    }
  }

  datatype Step = Register(name: string, id: int) | Unregister(name: string)

  // A new name gets the least free ID; a known name keeps its own.
  ghost predicate StepOk(ids: Ids, step: Step, after: Ids) {
    match step
    case Register(name, id) =>
      if name in ids then after == ids else IsLeastFree(ids, id) && after == ids[name := id]
    case Unregister(name) => after == ids - {name}
  }

  ghost predicate History(hs: seq<Ids>, steps: seq<Step>) {
    |hs| == |steps| + 1 && hs[0] == map[] &&
    forall i :: 0 <= i < |steps| ==> StepOk(hs[i], steps[i], hs[i + 1])
  }

  ghost predicate UniqueIds(ids: Ids) {
    forall m, n :: m in ids && n in ids && m != n ==> ids[m] != ids[n]
  }

  // Over any history of registrations and deletions, IDs are unique, and stay
  // below the largest number of services registered at the same time.
  lemma {:induction false} HistoryIds(hs: seq<Ids>, steps: seq<Step>, i: nat, peak: nat)
    requires History(hs, steps) && i < |hs| && forall j :: 0 <= j <= i ==> |hs[j]| <= peak
    ensures UniqueIds(hs[i]) && forall n :: n in hs[i] ==> 0 <= hs[i][n] < peak
  {
    hide StepOk;
    if i > 0 {
      HistoryIds(hs, steps, i - 1, peak);
      StepIds(hs[i - 1], steps[i - 1], hs[i], peak);
    }
  }

  lemma StepIds(ids: Ids, step: Step, after: Ids, peak: nat)
    requires StepOk(ids, step, after) && UniqueIds(ids) && |after| <= peak
    requires forall n :: n in ids ==> 0 <= ids[n] < peak
    ensures UniqueIds(after) && forall n :: n in after ==> 0 <= after[n] < peak
  {
    if step.Register? && step.name !in ids {
      FreeIdBound(ids, step.id);
      assert after.Keys == ids.Keys + {step.name};
      assert |after| == |ids| + 1;
      forall n | n in ids ensures ids[n] != step.id { assert ids[n] in ids.Values; }
    }
  }

  // Resolve: text that parses as a number is looked up among the IDs only,
  // anything else among the names.
  ghost predicate Resolves(ids: Ids, text: string, r: Option<string>) {
    match Atoi(text)
    case Number(id) =>
      (r.Some? ==> r.value in ids && ids[r.value] == id) && (r.None? ==> id !in ids.Values)
    case _ => r == if text in ids then Some(text) else None
  }

  method Resolve(ids: Ids, text: string) returns (r: Option<string>)
    ensures Resolves(ids, text, r)
  {
    var parsed := Atoi(text);
    if parsed.Number? {
      var names := ids.Keys;
      while names != {}
        invariant names <= ids.Keys
        invariant forall n :: n in ids && n !in names ==> ids[n] != parsed.value
        decreases names
      {
        var n :| n in names;
        if ids[n] == parsed.value {
          return Some(n);
        }
        names := names - {n};
      }
      return None;
    }
    return if text in ids then Some(text) else None;
  }

  // The service a request is for: what its text resolves to, else that text.
  function Canonical(r: Option<string>, text: string): string {
    match r
    case Some(n) => n
    case None => text
  }

  // The decimal ID of a registered service names that service.
  lemma ResolveById(ids: Ids, n: string, r: Option<string>)
    requires UniqueIds(ids) && n in ids && 0 <= ids[n] <= MAX_INT && Resolves(ids, Decimal(ids[n]), r)
    ensures r == Some(n)
  {
    AtoiDecimal(ids[n]);
    assert ids[n] in ids.Values;
  }

  // A decimal that is no service's ID resolves to nothing, whatever the services
  // are called, and so does text that is neither a number nor a name.
  lemma UnknownUnresolved(ids: Ids, id: nat, text: string, r: Option<string>, q: Option<string>)
    requires id <= MAX_INT && id !in ids.Values && Resolves(ids, Decimal(id), r)
    requires text != "" && text[0] != '-' && text[0] != '+' && !AllDigits(text) && Resolves(ids, text, q)
    ensures r == None && q == if text in ids then Some(text) else None
  {
    AtoiDecimal(id);
  }

  // Every command is meant to accept the name of a service; it reaches that
  // service exactly when the name does not parse as the ID of another one.
  lemma ResolveByNameExactly(ids: Ids, n: string, r: Option<string>)
    requires UniqueIds(ids) && n in ids && Resolves(ids, n, r)
    ensures Canonical(r, n) == n <==>
              (Atoi(n).Number? ==> forall m :: m in ids && ids[m] == Atoi(n).value ==> m == n)
  {
    if Atoi(n).Number? && r.None? {
      forall m | m in ids ensures ids[m] != Atoi(n).value { assert ids[m] in ids.Values; }
    }
  }

  // Two services, the second of them called "0": its name reaches the first.
  lemma NumericNameMissed(r: Option<string>)
    requires Resolves(map["web" := 0, "0" := 1], "0", r)
    ensures Canonical(r, "0") == "web"
  {
    var ids: Ids := map["web" := 0, "0" := 1];
    assert Decimal(0) == "0";
    AtoiDecimal(0);
    assert ids["web"] in ids.Values;
  }
}
