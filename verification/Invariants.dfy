// The inductive invariant of the reload protocol and its preservation by every
// step of an orderly run.
module Invariants {
  import opened Basics
  import opened InstanceList
  import opened Registry
  import opened Protocol

  // ---- what the invariant is made of ----

  // The slots of a runner list are a permutation of 0 .. length - 1.
  ghost predicate SlotsOk(rs: seq<Runner>) {
    (forall i :: 0 <= i < |rs| ==> rs[i].slot < |rs|) &&
    (forall i, j :: 0 <= i < j < |rs| ==> rs[i].slot != rs[j].slot)
  }

  ghost predicate Apart(a: Runner, b: Runner) {
    a.index != b.index && a.id != b.id && (a.addr != "" ==> a.addr != b.addr)
  }

  // Identities and indices were handed out before and are pairwise different;
  // so are the addresses that are set.
  ghost predicate FreshRunners(live: set<Runner>, nextIdx: nat, born: nat) {
    (forall r {:trigger r in live} :: r in live ==> r.index < nextIdx && r.id < born) &&
    (forall a, b {:trigger Apart(a, b)} :: a in live && b in live && a != b ==> Apart(a, b))
  }

  ghost predicate EntryOf(l: seq<InstanceState>, r: Runner, leaving: set<Runner>) {
    match Lookup(l, r.index)
    case None => false
    case Some(st) => st.slot == r.slot && st.addr == r.addr && (st.status == Draining ==> r in leaving)
  }

  function Indices(rs: set<Runner>): set<nat> {
    set r | r in rs :: r.index
  }

  // The store has exactly one entry per live runner, for its slot and address,
  // and only the runners that are being drained may show as draining.
  ghost predicate StatesMatch(l: seq<InstanceState>, live: set<Runner>, leaving: set<Runner>) {
    UniqueKeys(l) && Keys(l) == Indices(live) &&
    forall r :: r in live ==> EntryOf(l, r, leaving)
  }

  ghost predicate Consistent(g: Reg, others: set<Runner>, leaving: set<Runner>) {
    g.proc.Some? && SlotsOk(g.runners) &&
    FreshRunners(Elements(g.runners) + others, g.nextIdx, g.born) &&
    StatesMatch(g.proc.value.states, Elements(g.runners) + others, leaving)
  }

  // A live front proxy has exactly the non-empty addresses of the tracked
  // runners, in order.
  ghost predicate FrontOk(g: Reg) {
    g.front.Some? ==> g.proc.Some? && g.proc.value.spec.Fronted() && g.front.value == Upstreams(g.runners)
  }

  // The task rolls over slots 0 .. |plan| - 1 of the registered service, with
  // runners that existed before it began; a replacement is newer than they are.
  ghost predicate TaskPlan(t: Task, g: Reg)
    requires g.proc.Some?
  {
    && t.spec.(instances := 0) == g.proc.value.spec.(instances := 0)
    && 1 <= |t.plan| <= |g.runners| && t.at <= |t.plan| && t.birth <= g.born
    && (forall i :: 0 <= i < |t.plan| ==> t.plan[i].slot == i && t.plan[i].id < t.birth)
    && (t.phase.Probing? ==> t.phase.nr.slot == t.at && t.phase.nr.id >= t.birth)
    && (!t.phase.AtSlot? ==> t.at < |t.plan|)
  }

  // The instances of the slots not reached yet are still tracked; those of the
  // slots before are replacements that passed their probe.
  ghost predicate TaskTracked(plan: seq<Runner>, at: nat, birth: nat, rs: seq<Runner>, ready: set<Runner>) {
    && (forall i :: at <= i < |plan| ==> plan[i] in rs)
    && (forall r :: r in rs && r.slot < at ==> r.id >= birth && r in ready)
  }

  ghost predicate Replaced(plan: seq<Runner>, at: nat, r: Runner) {
    r.slot < at <= |plan| && plan[r.slot] == r
  }

  // Exactly the replaced instances are handed to drains, and of them exactly
  // those that a drain took up have been sent Stop.
  ghost predicate TaskDrains(plan: seq<Runner>, at: nat, drains: set<Runner>, dying: set<Runner>, told: set<Runner>) {
    && at <= |plan|
    && (forall r :: r in drains ==> Replaced(plan, at, r) && r !in told)
    && (forall r :: r in dying ==> Replaced(plan, at, r) && r in told)
    && (forall i :: 0 <= i < at ==> plan[i] in drains || plan[i] in told)
    && |drains| + |dying| <= at
  }

  ghost predicate TaskOk(t: Task, g: Reg, told: set<Runner>, ready: set<Runner>)
    requires g.proc.Some?
  {
    && TaskPlan(t, g)
    && TaskTracked(t.plan, t.at, t.birth, g.runners, ready)
    && TaskDrains(t.plan, t.at, t.drains, t.dying, told)
    && (t.phase.Probing? ==> t.phase.nr !in told)
  }

  ghost predicate Settled(g: Reg, others: set<Runner>, leaving: set<Runner>) {
    && Consistent(g, others, leaving)
    && |g.runners| == g.proc.value.spec.Count()
    && FrontOk(g)
  }

  ghost predicate Rolling(g: Reg, t: Task, told: set<Runner>, ready: set<Runner>) {
    Settled(g, InFlight(t), t.drains + t.dying) && TaskOk(t, g, told, ready)
  }

  ghost predicate Idle(s: Service) {
    s.reg.runners == [] && s.tasks == [] && s.reg.front.None?
  }

  ghost predicate Active(s: Service) {
    s.reg.runners != [] && s.deleting == 0 &&
    if s.tasks == [] then Settled(s.reg, {}, {}) else Rolling(s.reg, s.tasks[0], s.told, s.ready)
  }

  ghost predicate History(rs: seq<Runner>, born: nat, told: set<Runner>, ready: set<Runner>) {
    (forall r :: r in told + ready ==> r.id < born) &&
    (forall r :: r in rs ==> r !in told)
  }

  ghost predicate Good(s: Service) {
    Exclusive(s) && History(s.reg.runners, s.reg.born, s.told, s.ready) && (Idle(s) || Active(s))
  }

  // ---- store entries ----

  lemma EntryWritten(l: seq<InstanceState>, live: set<Runner>, leaving: set<Runner>, r: Runner, st: InstanceState,
                     nextIdx: nat, born: nat)
    requires StatesMatch(l, live, leaving) && r in live && FreshRunners(live, nextIdx, born)
    requires st.index == r.index && st.slot == r.slot && st.addr == r.addr && (st.status == Draining ==> r in leaving)
    ensures StatesMatch(Upsert(l, st), live, leaving)
  {
    UniqueUpsert(l, st);
    KeysUpsert(l, st);
    assert r.index in Indices(live);
    forall q | q in live ensures EntryOf(Upsert(l, st), q, leaving) {
      LookupUpsert(l, st, q.index);
      assert EntryOf(l, q, leaving);
      assert q != r ==> Apart(q, r);
    }
  }

  lemma StatusWritten(proc: Option<Process>, live: set<Runner>, leaving: set<Runner>, r: Runner, status: Status,
                      nextIdx: nat, born: nat)
    requires proc.Some? && StatesMatch(proc.value.states, live, leaving)
    requires r in live && FreshRunners(live, nextIdx, born) && (status == Draining ==> r in leaving)
    ensures var after := WriteStatus(proc, r.index, status);
            after.Some? && after.value.spec == proc.value.spec && StatesMatch(after.value.states, live, leaving)
    ensures status == Draining ==> MarkDraining(proc, r.index) == WriteStatus(proc, r.index, status)
  {
    var l := proc.value.states;
    assert EntryOf(l, r, leaving);
    EntryWritten(l, live, leaving, r, Lookup(l, r.index).value.(status := status), nextIdx, born);
  }

  lemma EntryRemoved(l: seq<InstanceState>, live: set<Runner>, leaving: set<Runner>, r: Runner, nextIdx: nat, born: nat)
    requires StatesMatch(l, live, leaving) && r in live && FreshRunners(live, nextIdx, born)
    ensures StatesMatch(Without(l, r.index), live - {r}, leaving - {r})
  {
    UniqueWithout(l, r.index);
    KeysWithout(l, r.index);
    forall q | q in live - {r} ensures q.index != r.index { assert Apart(q, r); }
    assert Indices(live - {r}) == Indices(live) - {r.index};
    forall q | q in live - {r} ensures EntryOf(Without(l, r.index), q, leaving - {r}) {
      LookupWithout(l, r.index, q.index);
      assert EntryOf(l, q, leaving);
    }
  }

  lemma EntryAdded(l: seq<InstanceState>, live: set<Runner>, leaving: set<Runner>, r: Runner)
    requires StatesMatch(l, live, leaving) && r.index !in Indices(live)
    ensures StatesMatch(Upsert(l, StartingState(r)), live + {r}, leaving)
  {
    var st := StartingState(r);
    UniqueUpsert(l, st);
    KeysUpsert(l, st);
    assert Indices(live + {r}) == Indices(live) + {r.index};
    forall q | q in live + {r} ensures EntryOf(Upsert(l, st), q, leaving) {
      LookupUpsert(l, st, q.index);
      if q in live {
        assert q.index in Indices(live);
        assert EntryOf(l, q, leaving);
      }
    }
  }

  lemma LeavingWidened(l: seq<InstanceState>, live: set<Runner>, leaving: set<Runner>, more: set<Runner>)
    requires StatesMatch(l, live, leaving) && leaving <= more
    ensures StatesMatch(l, live, more)
  {
    forall q | q in live ensures EntryOf(l, q, more) {
      assert EntryOf(l, q, leaving);
    }
  }

  // ---- creating runners ----

  // Creating a runner on an unused address keeps the registry consistent, with
  // the new runner among the live ones.
  lemma CreateOk(g: Reg, live: set<Runner>, leaving: set<Runner>, spec: Spec, slot: nat, found: string)
    requires g.proc.Some? && FreshRunners(live, g.nextIdx, g.born) && StatesMatch(g.proc.value.states, live, leaving)
    requires found == "" || forall r :: r in live ==> r.addr != found
    ensures var h, r := Create(g, spec, slot, found), NextRunner(g, spec, slot, found);
            && h.proc.Some? && h.proc.value.spec == g.proc.value.spec
            && FreshRunners(live + {r}, h.nextIdx, h.born)
            && StatesMatch(h.proc.value.states, live + {r}, leaving)
  {
    hide StatesMatch;
    var r := NextRunner(g, spec, slot, found);
    assert r.index !in Indices(live);
    EntryAdded(g.proc.value.states, live, leaving, r);
  }

  lemma AddInstanceOk(g: Reg, others: set<Runner>, leaving: set<Runner>, spec: Spec, found: string)
    requires Consistent(g, others, leaving)
    requires found == "" || forall r :: r in Elements(g.runners) + others ==> r.addr != found
    ensures Consistent(AddInstance(g, spec, |g.runners|, found), others, leaving)
  {
    hide FreshRunners, StatesMatch;
    var r := NextRunner(g, spec, |g.runners|, found);
    CreateOk(g, Elements(g.runners) + others, leaving, spec, |g.runners|, found);
    var h := AddInstance(g, spec, |g.runners|, found);
    assert Elements(h.runners) + others == Elements(g.runners) + others + {r};
  }

  // What growing leaves alone and what it adds.
  ghost predicate Grown(g: Reg, h: Reg, upto: nat) {
    && |h.runners| == (if upto < |g.runners| then |g.runners| else upto)
    && g.runners <= h.runners
    && g.nextIdx <= h.nextIdx && g.born <= h.born
    && (forall i :: |g.runners| <= i < |h.runners| ==> h.runners[i].slot == i && h.runners[i].id >= g.born)
  }

  lemma {:induction false} GrowOk(g: Reg, others: set<Runner>, leaving: set<Runner>, spec: Spec, upto: nat, addrs: seq<string>)
    requires Consistent(g, others, leaving) && Distinct(addrs)
    requires forall i, r :: |g.runners| <= i < |addrs| && addrs[i] != "" && r in Elements(g.runners) + others ==> r.addr != addrs[i]
    ensures var h := Grow(g, spec, |g.runners|, upto, addrs);
            Consistent(h, others, leaving) && Grown(g, h, upto) && h.proc.value.spec == g.proc.value.spec
    decreases upto - |g.runners|
  {
    hide Consistent;
    var from := |g.runners|;
    GrowKeepsFlags(g, spec, from, upto, addrs);
    if from < upto {
      var found := Found(addrs, from);
      var h := AddInstance(g, spec, from, found);
      var nr := NextRunner(g, spec, from, found);
      AddInstanceOk(g, others, leaving, spec, found);
      assert Elements(h.runners) + others == Elements(g.runners) + others + {nr};
      GrowOk(h, others, leaving, spec, upto, addrs);
      var z := Grow(h, spec, from + 1, upto, addrs);
      assert z.runners[from] == h.runners[from] == nr;
      assert g.runners <= h.runners;
    }
  }

  // Launching all instances of a service on which nothing runs.
  lemma LaunchOk(g: Reg, spec: Spec, addrs: seq<string>, up: bool)
    requires Distinct(addrs) && (g.front.Some? ==> spec.Fronted())
    ensures var h := Launch(g, spec, addrs, up);
            && Consistent(h, {}, {}) && FrontOk(h) && h.proc.value.spec == spec
            && |h.runners| == spec.Count() && h.runners != []
            && g.born <= h.born && h.reloading == g.reloading
            && (forall r :: r in h.runners ==> r.id >= g.born)
  {
    var c := g.(proc := Some(Process(spec, [])), runners := []);
    assert Elements(c.runners) + {} == {} && Indices({}) == {};
    assert Keys([]) == {};
    GrowOk(c, {}, {}, spec, spec.Count(), addrs);
    GrowKeepsFlags(c, spec, 0, spec.Count(), addrs);
  }

  // ---- runner lists ----

  lemma {:induction false} ReplaceTracked(rs: seq<Runner>, prev: Runner, nw: Runner) returns (j: nat)
    requires prev in rs
    ensures j < |rs| && rs[j] == prev && Replace(rs, prev, nw) == rs[j := nw]
  {
    if rs[0] == prev {
      j := 0;
    } else {
      var i := ReplaceTracked(rs[1..], prev, nw);
      j := i + 1;
    }
  }

  lemma {:induction false} ReplaceUntracked(rs: seq<Runner>, prev: Runner, nw: Runner)
    requires prev !in rs
    ensures Replace(rs, prev, nw) == rs + [nw]
  {
    if rs != [] {
      ReplaceUntracked(rs[1..], prev, nw);
    }
  }

  // In a list with different slots, a replacement swaps one element for one
  // with the same slot.
  lemma SwapOk(rs: seq<Runner>, prev: Runner, nw: Runner)
    requires SlotsOk(rs) && prev in rs && prev.slot == nw.slot
    ensures var qs := Replace(rs, prev, nw);
            SlotsOk(qs) && |qs| == |rs| && Elements(qs) == Elements(rs) - {prev} + {nw}
  {
    var j := ReplaceTracked(rs, prev, nw);
    var qs := rs[j := nw];
    forall r | r in Elements(rs) - {prev} + {nw} ensures r in qs {
      if r == nw {
        assert qs[j] == nw;
      } else {
        var i :| 0 <= i < |rs| && rs[i] == r;
        assert qs[i] == r;
      }
    }
  }

  lemma {:induction false} AtMostOnce(rs: seq<Runner>, r: Runner)
    requires forall i, j :: 0 <= i < j < |rs| ==> rs[i] != rs[j]
    ensures multiset(rs)[r] <= 1
  {
    if rs != [] {
      AtMostOnce(rs[1..], r);
      assert rs == [rs[0]] + rs[1..];
      if rs[0] == r { assert r !in rs[1..]; }
    }
  }

  lemma TwicePresent(rs: seq<Runner>, i: nat, j: nat)
    requires i < j < |rs| && rs[i] == rs[j]
    ensures multiset(rs)[rs[i]] >= 2
  {
    var a, b := rs[..j], rs[j..];
    assert rs == a + b;
    assert a[i] == rs[i] && b[0] == rs[i];
    assert multiset(rs) == multiset(a) + multiset(b);
  }

  lemma {:induction false} SlotAtLeast(rs: seq<Runner>, i: nat)
    requires i < |rs| && forall j, k :: 0 <= j < k < |rs| ==> rs[j].slot < rs[k].slot
    ensures rs[i].slot >= i
  {
    if i > 0 { SlotAtLeast(rs, i - 1); }
  }

  lemma {:induction false} SlotAtMost(rs: seq<Runner>, i: nat)
    requires i < |rs| && forall j, k :: 0 <= j < k < |rs| ==> rs[j].slot < rs[k].slot
    requires forall j :: 0 <= j < |rs| ==> rs[j].slot < |rs|
    ensures rs[i].slot <= i
    decreases |rs| - i
  {
    if i < |rs| - 1 { SlotAtMost(rs, i + 1); }
  }

  // Sorting a list whose slots are 0 .. n-1 in some order puts slot i at i.
  lemma SortedSlots(sorted: seq<Runner>, rs: seq<Runner>)
    requires SlotsOk(rs) && IsSortOf(sorted, rs)
    ensures |sorted| == |rs| && Elements(sorted) == Elements(rs)
    ensures forall i :: 0 <= i < |sorted| ==> sorted[i].slot == i
  {
    assert |sorted| == |multiset(sorted)| == |rs|;
    forall r ensures r in sorted <==> r in rs {
      assert r in multiset(sorted) <==> r in multiset(rs);
    }
    forall i, j | 0 <= i < j < |sorted| ensures sorted[i].slot < sorted[j].slot {
      assert sorted[i] in rs && sorted[j] in rs;
      if sorted[i] == sorted[j] {
        TwicePresent(sorted, i, j);
        AtMostOnce(rs, sorted[i]);
        assert false;
      }
    }
    forall i | 0 <= i < |sorted| ensures sorted[i].slot < |sorted| { assert sorted[i] in rs; }
    forall i | 0 <= i < |sorted| ensures sorted[i].slot == i {
      SlotAtLeast(sorted, i);
      SlotAtMost(sorted, i);
    }
  }

  // Every slot below the length is held by a tracked runner.
  lemma SlotHolder(rs: seq<Runner>, k: nat) returns (r: Runner)
    requires SlotsOk(rs) && k < |rs|
    ensures r in rs && r.slot == k
  {
    var v := seq(|rs|, i requires 0 <= i < |rs| => rs[i].slot);
    DistinctValuesCover(v, k);
    var i :| 0 <= i < |v| && v[i] == k;
    r := rs[i];
  }

  // ---- preservation: the registry and one task ----

  lemma StatusSettled(g: Reg, others: set<Runner>, leaving: set<Runner>, r: Runner, status: Status)
    requires Settled(g, others, leaving) && r in Elements(g.runners) + others
    requires status == Draining ==> r in leaving
    ensures var after := WriteStatus(g.proc, r.index, status);
            Settled(g.(proc := after), others, leaving) &&
            g.proc.Some? && after.Some? && after.value.spec == g.proc.value.spec
  {
    StatusWritten(g.proc, Elements(g.runners) + others, leaving, r, status, g.nextIdx, g.born);
  }

  lemma FewerFresh(live: set<Runner>, fewer: set<Runner>, nextIdx: nat, born: nat)
    requires FreshRunners(live, nextIdx, born) && fewer <= live
    ensures FreshRunners(fewer, nextIdx, born)
  {
  }

  // Removing the entry of an untracked runner together with the runner.
  lemma RemovedSettled(g: Reg, others: set<Runner>, leaving: set<Runner>, r: Runner)
    requires Settled(g, others, leaving) && r in others && r !in g.runners
    ensures Settled(g.(proc := RemoveState(g.proc, r.index)), others - {r}, leaving - {r})
  {
    hide FreshRunners, StatesMatch;
    var live := Elements(g.runners) + others;
    EntryRemoved(g.proc.value.states, live, leaving, r, g.nextIdx, g.born);
    assert Elements(g.runners) + (others - {r}) == live - {r};
    FewerFresh(live, live - {r}, g.nextIdx, g.born);
  }

  lemma SpawnTask(g: Reg, t: Task, told: set<Runner>, ready: set<Runner>, found: string)
    requires g.proc.Some? && TaskOk(t, g, told, ready) && t.phase.AtSlot? && t.at < |t.plan|
    requires History(g.runners, g.born, told, ready)
    ensures TaskOk(t.(phase := Probing(NextRunner(g, t.spec, t.at, found))), Create(g, t.spec, t.at, found), told, ready)
  {
    hide TaskTracked, TaskDrains;
  }

  lemma SpawnRolling(g: Reg, t: Task, told: set<Runner>, ready: set<Runner>, found: string)
    requires Rolling(g, t, told, ready) && t.phase.AtSlot? && t.at < |t.plan|
    requires History(g.runners, g.born, told, ready)
    requires found == "" || forall r :: r in Elements(g.runners) + InFlight(t) ==> r.addr != found
    ensures Rolling(Create(g, t.spec, t.at, found), t.(phase := Probing(NextRunner(g, t.spec, t.at, found))), told, ready)
  {
    hide FreshRunners, StatesMatch, SlotsOk, TaskOk;
    var nr := NextRunner(g, t.spec, t.at, found);
    var u := t.(phase := Probing(nr));
    CreateOk(g, Elements(g.runners) + InFlight(t), t.drains + t.dying, t.spec, t.at, found);
    assert Elements(g.runners) + InFlight(u) == Elements(g.runners) + InFlight(t) + {nr};
    SpawnTask(g, t, told, ready, found);
  }

  // What a task's invariant says of its runners in flight.
  lemma InFlightApart(g: Reg, t: Task, told: set<Runner>, ready: set<Runner>)
    requires Rolling(g, t, told, ready)
    ensures g.proc.Some?
    ensures forall r :: r in InFlight(t) ==> r !in g.runners
    ensures t.phase.Probing? ==> t.phase.nr !in t.drains + t.dying
    ensures t.drains !! t.dying
  {
    hide FreshRunners, StatesMatch, FrontOk, SlotsOk;
    if t.phase.Probing? && t.phase.nr in g.runners {
      DifferentSlots(g.runners, t.phase.nr, t.plan[t.at]);
      assert false;
    }
  }

  lemma AbortDrains(plan: seq<Runner>, at: nat, drains: set<Runner>, dying: set<Runner>, told: set<Runner>, nr: Runner)
    requires TaskDrains(plan, at, drains, dying, told) && nr !in drains
    ensures TaskDrains(plan, at, drains, dying, told + {nr})
  {
    hide Replaced;
  }

  lemma AbortTask(g: Reg, h: Reg, t: Task, told: set<Runner>, ready: set<Runner>)
    requires g.proc.Some? && TaskOk(t, g, told, ready) && t.phase.Probing? && t.phase.nr !in t.drains + t.dying
    requires h.proc.Some? && h.proc.value.spec == g.proc.value.spec && h.runners == g.runners && h.born == g.born
    ensures TaskOk(t.(phase := Aborted), h, told + {t.phase.nr}, ready)
  {
    hide TaskTracked, TaskDrains;
    AbortDrains(t.plan, t.at, t.drains, t.dying, told, t.phase.nr);
  }

  lemma AbortRolling(g: Reg, t: Task, told: set<Runner>, ready: set<Runner>)
    requires Rolling(g, t, told, ready) && t.phase.Probing?
    ensures Rolling(g.(proc := RemoveState(g.proc, t.phase.nr.index)), t.(phase := Aborted), told + {t.phase.nr}, ready)
    ensures t.phase.nr !in g.runners
  {
    hide Settled, TaskOk;
    var nr, u := t.phase.nr, t.(phase := Aborted);
    InFlightApart(g, t, told, ready);
    RemovedSettled(g, InFlight(t), t.drains + t.dying, nr);
    assert InFlight(t) - {nr} == InFlight(u);
    assert t.drains + t.dying - {nr} == u.drains + u.dying;
    AbortTask(g, g.(proc := RemoveState(g.proc, nr.index)), t, told, ready);
  }

  lemma DrainStopDrains(plan: seq<Runner>, at: nat, drains: set<Runner>, dying: set<Runner>, told: set<Runner>, r: Runner)
    requires TaskDrains(plan, at, drains, dying, told) && r in drains
    ensures TaskDrains(plan, at, drains - {r}, dying + {r}, told + {r})
  {
    hide Replaced;
    assert |dying + {r}| <= |dying| + 1 && |drains - {r}| == |drains| - 1;
  }

  lemma DrainStopTask(g: Reg, h: Reg, t: Task, told: set<Runner>, ready: set<Runner>, r: Runner)
    requires g.proc.Some? && TaskOk(t, g, told, ready) && r in t.drains && (t.phase.Probing? ==> t.phase.nr !in t.drains)
    requires h.proc.Some? && h.proc.value.spec == g.proc.value.spec && h.runners == g.runners && h.born == g.born
    ensures TaskOk(t.(drains := t.drains - {r}, dying := t.dying + {r}), h, told + {r}, ready)
  {
    hide TaskTracked, TaskDrains;
    DrainStopDrains(t.plan, t.at, t.drains, t.dying, told, r);
  }

  lemma DrainStopRolling(g: Reg, t: Task, told: set<Runner>, ready: set<Runner>, r: Runner)
    requires Rolling(g, t, told, ready) && r in t.drains
    ensures Rolling(g.(proc := WriteStatus(g.proc, r.index, Stopped)),
                    t.(drains := t.drains - {r}, dying := t.dying + {r}), told + {r}, ready)
    ensures r !in g.runners
  {
    hide Settled, TaskOk, WriteStatus;
    var u := t.(drains := t.drains - {r}, dying := t.dying + {r});
    var h := g.(proc := WriteStatus(g.proc, r.index, Stopped));
    InFlightApart(g, t, told, ready);
    StatusSettled(g, InFlight(t), t.drains + t.dying, r, Stopped);
    assert InFlight(u) == InFlight(t);
    assert u.drains + u.dying == t.drains + t.dying;
    DrainStopTask(g, h, t, told, ready, r);
  }

  lemma DrainRemoveDrains(plan: seq<Runner>, at: nat, drains: set<Runner>, dying: set<Runner>, told: set<Runner>, r: Runner)
    requires TaskDrains(plan, at, drains, dying, told)
    ensures TaskDrains(plan, at, drains, dying - {r}, told)
  {
    hide Replaced;
    SubsetSize(dying - {r}, dying);
  }

  lemma DrainRemoveTask(g: Reg, h: Reg, t: Task, told: set<Runner>, ready: set<Runner>, r: Runner)
    requires g.proc.Some? && TaskOk(t, g, told, ready) && r in t.dying
    requires h.proc.Some? && h.proc.value.spec == g.proc.value.spec && h.runners == g.runners && h.born == g.born
    ensures TaskOk(t.(dying := t.dying - {r}), h, told, ready)
  {
    hide TaskTracked, TaskDrains;
    DrainRemoveDrains(t.plan, t.at, t.drains, t.dying, told, r);
  }

  lemma DrainRemoveRolling(g: Reg, t: Task, told: set<Runner>, ready: set<Runner>, r: Runner)
    requires Rolling(g, t, told, ready) && r in t.dying
    ensures Rolling(g.(proc := RemoveState(g.proc, r.index)), t.(dying := t.dying - {r}), told, ready)
  {
    hide Settled, TaskOk;
    var u := t.(dying := t.dying - {r});
    InFlightApart(g, t, told, ready);
    RemovedSettled(g, InFlight(t), t.drains + t.dying, r);
    assert InFlight(t) - {r} == InFlight(u);
    assert t.drains + t.dying - {r} == u.drains + u.dying;
    DrainRemoveTask(g, g.(proc := RemoveState(g.proc, r.index)), t, told, ready, r);
  }

  lemma DifferentSlots(rs: seq<Runner>, a: Runner, b: Runner)
    requires SlotsOk(rs) && a in rs && b in rs && a.slot == b.slot
    ensures a == b
  {
    var i :| 0 <= i < |rs| && rs[i] == a;
    var j :| 0 <= j < |rs| && rs[j] == b;
    assert i == j;
  }

  lemma PromoteTracked(plan: seq<Runner>, at: nat, birth: nat, rs: seq<Runner>, qs: seq<Runner>, ready: set<Runner>, nr: Runner)
    requires TaskTracked(plan, at, birth, rs, ready) && SlotsOk(rs) && at < |plan|
    requires plan[at].slot == at && nr.id >= birth
    requires forall i :: at < i < |plan| ==> plan[i] != plan[at]
    requires Elements(qs) == Elements(rs) - {plan[at]} + {nr}
    ensures TaskTracked(plan, at + 1, birth, qs, ready + {nr})
  {
    var prev := plan[at];
    hide SlotsOk;
    forall r | r in qs && r.slot < at + 1 ensures r.id >= birth && r in ready + {nr} {
      assert r in Elements(qs);
      if r != nr {
        assert r in Elements(rs);
        if r.slot == at { DifferentSlots(rs, r, prev); }
      }
    }
    forall i | at + 1 <= i < |plan| ensures plan[i] in qs {
      assert plan[i] in Elements(qs);
    }
  }

  lemma PromoteDrains(plan: seq<Runner>, at: nat, drains: set<Runner>, dying: set<Runner>, told: set<Runner>)
    requires TaskDrains(plan, at, drains, dying, told) && at < |plan| && plan[at].slot == at && plan[at] !in told
    ensures TaskDrains(plan, at + 1, drains + {plan[at]}, dying, told)
  {
    var prev := plan[at];
    assert forall r :: Replaced(plan, at, r) ==> Replaced(plan, at + 1, r);
    assert Replaced(plan, at + 1, prev);
    hide Replaced;
    assert |drains + {prev}| <= |drains| + 1;
  }

  lemma PromoteTask(g: Reg, h: Reg, t: Task, told: set<Runner>, ready: set<Runner>)
    requires g.proc.Some? && TaskOk(t, g, told, ready) && t.phase.Probing? && SlotsOk(g.runners)
    requires t.plan[t.at] !in told
    requires h.proc.Some? && h.proc.value.spec == g.proc.value.spec && h.born == g.born
    requires |h.runners| == |g.runners|
    requires Elements(h.runners) == Elements(g.runners) - {t.plan[t.at]} + {t.phase.nr}
    ensures TaskOk(t.(phase := AtSlot, at := t.at + 1, drains := t.drains + {t.plan[t.at]}), h, told, ready + {t.phase.nr})
  {
    hide TaskTracked, TaskDrains, SlotsOk;
    PromoteTracked(t.plan, t.at, t.birth, g.runners, h.runners, ready, t.phase.nr);
    PromoteDrains(t.plan, t.at, t.drains, t.dying, told);
  }

  lemma PromoteSettled(g: Reg, t: Task, up: bool, leaving: set<Runner>)
    requires Settled(g, InFlight(t), leaving) && t.phase.Probing? && t.at < |t.plan| && t.plan[t.at] in g.runners
    requires t.plan[t.at].slot == t.phase.nr.slot && t.phase.nr !in t.drains + t.dying && t.phase.nr !in g.runners
    requires t.plan[t.at] !in InFlight(t) && t.spec.(instances := 0) == g.proc.value.spec.(instances := 0)
    ensures var prev := t.plan[t.at];
            var h := PromoteReg(g, t.spec, prev, t.phase.nr, up);
            && Settled(h, InFlight(t.(phase := AtSlot, drains := t.drains + {prev})), leaving + {prev})
            && h.proc.Some? && h.proc.value.spec == g.proc.value.spec && h.born == g.born
            && |h.runners| == |g.runners| && Elements(h.runners) == Elements(g.runners) - {prev} + {t.phase.nr}
            && h.runners == Replace(g.runners, prev, t.phase.nr)
  {
    hide FreshRunners, StatesMatch, SlotsOk, Replace, MarkDraining, WriteStatus;
    var prev, nr := t.plan[t.at], t.phase.nr;
    var u := t.(phase := AtSlot, drains := t.drains + {prev});
    var h := PromoteReg(g, t.spec, prev, nr, up);
    var live := Elements(g.runners) + InFlight(t);
    assert prev in live;
    SwapOk(g.runners, prev, nr);
    LeavingWidened(g.proc.value.states, live, leaving, leaving + {prev});
    StatusWritten(g.proc, live, leaving + {prev}, prev, Draining, g.nextIdx, g.born);
    assert Elements(h.runners) + InFlight(u) == live;
  }

  lemma NextReplaced(g: Reg, t: Task, told: set<Runner>, ready: set<Runner>)
    requires Rolling(g, t, told, ready) && t.phase.Probing? && History(g.runners, g.born, told, ready)
    ensures t.plan[t.at] !in told
    ensures t.at < |t.plan| && t.plan[t.at] in g.runners && t.plan[t.at].slot == t.phase.nr.slot == t.at
    ensures g.proc.Some? && t.spec.(instances := 0) == g.proc.value.spec.(instances := 0)
    ensures SlotsOk(g.runners)
  {
    hide FreshRunners, StatesMatch, FrontOk, SlotsOk;
  }

  lemma PromoteRolling(g: Reg, t: Task, told: set<Runner>, ready: set<Runner>, up: bool)
    requires Rolling(g, t, told, ready) && t.phase.Probing? && t.at < |t.plan|
    requires History(g.runners, g.born, told, ready)
    ensures var prev := t.plan[t.at];
            var h := PromoteReg(g, t.spec, prev, t.phase.nr, up);
            && Rolling(h, t.(phase := AtSlot, at := t.at + 1, drains := t.drains + {prev}), told, ready + {t.phase.nr})
            && Elements(h.runners) == Elements(g.runners) - {prev} + {t.phase.nr}
            && h.born == g.born && h.runners != [] && h.reloading == g.reloading
  {
    hide Settled, TaskOk, SlotsOk, History, Replace;
    var prev, nr := t.plan[t.at], t.phase.nr;
    var u := t.(phase := AtSlot, at := t.at + 1, drains := t.drains + {prev});
    InFlightApart(g, t, told, ready);
    NextReplaced(g, t, told, ready);
    PromoteSettled(g, t, up, t.drains + t.dying);
    var h := PromoteReg(g, t.spec, prev, nr, up);
    assert InFlight(t.(phase := AtSlot, drains := t.drains + {prev})) == InFlight(u);
    assert t.drains + t.dying + {prev} == u.drains + u.dying;
    PromoteTask(g, h, t, told, ready);
  }

  // ---- preservation: every step of the service ----

  lemma LaunchedGood(s: Service, spec: Spec, addrs: seq<string>, up: bool)
    requires Good(s) && s.tasks == [] && s.deleting == 0 && Distinct(addrs)
    requires s.reg.front.Some? ==> spec.Fronted()
    ensures Good(s.(reg := Launch(s.reg, spec, addrs, up)))
  {
    hide Launch, FreshRunners, StatesMatch, SlotsOk;
    LaunchOk(s.reg, spec, addrs, up);
  }

  // The spec of an active service whose proxy is up is a proxied one.
  lemma FrontSpec(s: Service)
    requires Good(s) && s.reg.front.Some?
    ensures s.reg.proc.Some? && s.reg.proc.value.spec.Fronted()
  {
    hide Consistent, TaskOk, History;
  }

  lemma ActiveRegistered(s: Service)
    requires Active(s)
    ensures s.reg.proc.Some?
  {
    hide FreshRunners, StatesMatch, SlotsOk, TaskOk, FrontOk;
  }

  lemma ReportGood(s: Service, r: Runner, status: Status)
    requires Good(s) && r in Live(s) && status != Draining
    ensures Good(s.(reg := s.reg.(proc := WriteStatus(s.reg.proc, r.index, status))))
  {
    hide Settled, TaskOk, History, WriteStatus;
    StatusSettled(s.reg, TaskRunners(s.tasks), if s.tasks == [] then {} else s.tasks[0].drains + s.tasks[0].dying, r, status);
    if s.tasks != [] {
      SameTask(s.tasks[0], s.reg, s.reg.(proc := WriteStatus(s.reg.proc, r.index, status)), s.told, s.ready);
    }
  }

  lemma SameTask(t: Task, g: Reg, h: Reg, told: set<Runner>, ready: set<Runner>)
    requires g.proc.Some? && TaskOk(t, g, told, ready)
    requires h.proc.Some? && h.proc.value.spec == g.proc.value.spec && h.runners == g.runners && h.born == g.born
    ensures TaskOk(t, h, told, ready)
  {
  }

  lemma NewTask(g: Reg, plan: seq<Runner>, told: set<Runner>, ready: set<Runner>)
    requires Settled(g, {}, {}) && IsSortOf(plan, g.runners) && g.runners != []
    ensures Rolling(g.(reloading := true), Task(g.proc.value.spec, plan, 0, AtSlot, {}, {}, g.born), told, ready)
  {
    hide StatesMatch;
    var t := Task(g.proc.value.spec, plan, 0, AtSlot, {}, {}, g.born);
    SortedSlots(plan, g.runners);
    hide SlotsOk;
    assert InFlight(t) == {} && t.drains + t.dying == {};
    forall i | 0 <= i < |plan| ensures plan[i] in g.runners && plan[i].id < g.born {
      assert plan[i] in Elements(plan);
      assert plan[i] in Elements(g.runners) + {};
    }
  }

  lemma ReloadGood(s: Service, e: Event)
    requires Good(s) && e.Reload? && Enabled(s, e) && Orderly(s, e) && FreshAddrs(s, e)
    ensures Good(Next(s, e))
  {
    hide Settled, Rolling, History, Launch, IsSortOf, Distinct;
    if ReloadBegins(s.reg) {
      NewTask(s.reg, e.plan, s.told, s.ready);
    } else if s.reg.proc.Some? && s.reg.proc.value.spec.port != 0 && !s.reg.reloading {
      LaunchedGood(s, s.reg.proc.value.spec, e.addrs, e.up);
    }
  }

  lemma GrownHistory(g: Reg, h: Reg, upto: nat, told: set<Runner>, ready: set<Runner>)
    requires Grown(g, h, upto) && History(g.runners, g.born, told, ready)
    ensures History(h.runners, h.born, told, ready)
  {
    forall r | r in h.runners ensures r !in told {
      var i :| 0 <= i < |h.runners| && h.runners[i] == r;
      if i < |g.runners| { assert h.runners[i] == g.runners[i]; }
    }
  }

  lemma GrownTask(t: Task, g: Reg, h: Reg, upto: nat, told: set<Runner>, ready: set<Runner>)
    requires g.proc.Some? && TaskOk(t, g, told, ready) && Grown(g, h, upto)
    requires h.proc.Some? && h.proc.value.spec.(instances := 0) == g.proc.value.spec.(instances := 0)
    ensures TaskOk(t, h, told, ready)
  {
    forall i | t.at <= i < |t.plan| ensures t.plan[i] in h.runners {
      var j :| 0 <= j < |g.runners| && g.runners[j] == t.plan[i];
      assert h.runners[j] == g.runners[j];
    }
    forall r | r in h.runners && r.slot < t.at ensures r.id >= t.birth && r in ready {
      var j :| 0 <= j < |h.runners| && h.runners[j] == r;
      if j < |g.runners| { assert h.runners[j] == g.runners[j]; }
    }
  }

  lemma ScaledUp(g: Reg, others: set<Runner>, leaving: set<Runner>, target: int, sorted: seq<Runner>, addrs: seq<string>, up: bool)
    requires Settled(g, others, leaving) && ScaleAccepted(g, target) && target > |g.runners| == |sorted| && Distinct(addrs)
    requires forall i, r :: 0 <= i < |addrs| && addrs[i] != "" && r in Elements(g.runners) + others ==> r.addr != addrs[i]
    ensures var h := ScaleReg(g, target, sorted, addrs, up);
            && Settled(h, others, leaving) && Grown(g, h, target) && h.reloading == g.reloading
            && h.proc.Some? && h.proc.value.spec.(instances := 0) == g.proc.value.spec.(instances := 0)
  {
    hide FreshRunners, StatesMatch, SlotsOk, Grow;
    GrowOk(g, others, leaving, g.proc.value.spec, target, addrs);
    GrowKeepsFlags(g, g.proc.value.spec, |g.runners|, target, addrs);
  }

  lemma ScaleUpGood(s: Service, e: Event)
    requires Good(s) && e.Scale? && Enabled(s, e) && Orderly(s, e) && FreshAddrs(s, e)
    requires ScaleAccepted(s.reg, e.target) && e.target > |s.reg.runners|
    ensures Good(Next(s, e))
  {
    hide Settled, TaskOk, History, ScaleReg, Grown, IsSortOf, Distinct;
    var g, n := s.reg, Next(s, e);
    var others := TaskRunners(s.tasks);
    forall i, r | 0 <= i < |e.addrs| && e.addrs[i] != "" && r in Elements(g.runners) + others
      ensures r.addr != e.addrs[i]
    {
      assert Unused(e.addrs[i], s) && r in Live(s);
    }
    ScaledUp(g, others, if s.tasks == [] then {} else s.tasks[0].drains + s.tasks[0].dying, e.target, e.sorted, e.addrs, e.up);
    GrownHistory(g, n.reg, e.target, s.told, s.ready);
    GrownSize(g, n.reg, e.target);
    if s.tasks != [] { GrownTask(s.tasks[0], g, n.reg, e.target, s.told, s.ready); }
  }

  lemma GrownSize(g: Reg, h: Reg, upto: nat)
    requires Grown(g, h, upto)
    ensures |h.runners| >= |g.runners|
  {
  }

  lemma {:induction false} DropOk(proc: Option<Process>, live: set<Runner>, drop: seq<Runner>, nextIdx: nat, born: nat)
    requires proc.Some? && StatesMatch(proc.value.states, live, {}) && FreshRunners(live, nextIdx, born)
    requires Elements(drop) <= live && forall i, j :: 0 <= i < j < |drop| ==> drop[i] != drop[j]
    ensures var after := RemoveStates(proc, drop);
            && after.Some? && after.value.spec == proc.value.spec
            && StatesMatch(after.value.states, live - Elements(drop), {})
    decreases |drop|
  {
    hide StatesMatch, FreshRunners;
    if drop == [] {
      assert live - Elements(drop) == live;
    } else {
      assert drop[0] in Elements(drop);
      EntryRemoved(proc.value.states, live, {}, drop[0], nextIdx, born);
      FewerFresh(live, live - {drop[0]}, nextIdx, born);
      assert {} - {drop[0]} == {};
      assert drop == [drop[0]] + drop[1..];
      assert Elements(drop[1..]) <= live - {drop[0]};
      DropOk(RemoveState(proc, drop[0].index), live - {drop[0]}, drop[1..], nextIdx, born);
      assert live - {drop[0]} - Elements(drop[1..]) == live - Elements(drop);
    }
  }

  lemma SplitSorted(sorted: seq<Runner>, rs: seq<Runner>, target: nat)
    requires SlotsOk(rs) && IsSortOf(sorted, rs) && target <= |sorted|
    ensures SlotsOk(sorted[..target])
    ensures Elements(sorted[target..]) <= Elements(rs)
    ensures Elements(sorted[..target]) == Elements(rs) - Elements(sorted[target..])
    ensures forall i, j :: 0 <= i < j < |sorted[target..]| ==> sorted[target..][i] != sorted[target..][j]
  {
    SortedSlots(sorted, rs);
    var keep, drop := sorted[..target], sorted[target..];
    assert sorted == keep + drop;
    assert Elements(sorted) == Elements(keep) + Elements(drop);
    assert forall i :: 0 <= i < |drop| ==> drop[i].slot == target + i;
    assert forall r :: r in keep ==> r.slot < target;
  }

  lemma ScaledDown(g: Reg, target: int, sorted: seq<Runner>, addrs: seq<string>, up: bool)
    requires Settled(g, {}, {}) && ScaleAccepted(g, target) && target < |g.runners| == |sorted| && IsSortOf(sorted, g.runners)
    ensures var h := ScaleReg(g, target, sorted, addrs, up);
            && Settled(h, {}, {}) && Elements(h.runners) <= Elements(g.runners)
            && h.runners != [] && h.born == g.born && h.reloading == g.reloading
  {
    hide FreshRunners, StatesMatch, SlotsOk, IsSortOf;
    var drop := sorted[target..];
    var h := ScaleReg(g, target, sorted, addrs, up);
    SplitSorted(sorted, g.runners, target);
    assert Elements(g.runners) + {} == Elements(g.runners);
    DropOk(g.proc, Elements(g.runners), drop, g.nextIdx, g.born);
    assert Elements(h.runners) + {} == Elements(g.runners) - Elements(drop);
    FewerFresh(Elements(g.runners), Elements(h.runners) + {}, g.nextIdx, g.born);
  }

  lemma ScaleDownGood(s: Service, e: Event)
    requires Good(s) && e.Scale? && Enabled(s, e) && Orderly(s, e)
    requires ScaleAccepted(s.reg, e.target) && e.target < |s.reg.runners|
    ensures Good(Next(s, e))
  {
    hide Settled, Rolling, ScaleReg, IsSortOf;
    var n := Next(s, e);
    ScaledDown(s.reg, e.target, e.sorted, e.addrs, e.up);
    forall r | r in n.reg.runners ensures r !in s.told {
      assert r in Elements(n.reg.runners);
      assert r in Elements(s.reg.runners);
    }
  }

  lemma SpawnGood(s: Service, e: Event)
    requires Good(s) && e.Spawn? && Enabled(s, e) && FreshAddrs(s, e)
    ensures Good(Next(s, e))
  {
    hide Settled, TaskOk;
    var t := s.tasks[0];
    PlanSlot(s.reg, t, s.told, s.ready);
    SpawnRolling(s.reg, t, s.told, s.ready, e.found);
  }

  lemma PlanSlot(g: Reg, t: Task, told: set<Runner>, ready: set<Runner>)
    requires Rolling(g, t, told, ready) && t.at < |t.plan|
    ensures t.plan[t.at].slot == t.at
  {
    hide Consistent, FrontOk;
  }

  lemma AbortGood(s: Service, e: Event)
    requires Good(s) && e.Abort? && Enabled(s, e)
    ensures Good(Next(s, e))
  {
    hide Settled, TaskOk;
    var t := s.tasks[0];
    AbortRolling(s.reg, t, s.told, s.ready);
    ProbedIsOld(s.reg, t, s.told, s.ready);
  }

  lemma ProbedIsOld(g: Reg, t: Task, told: set<Runner>, ready: set<Runner>)
    requires Rolling(g, t, told, ready)
    ensures forall r :: r in InFlight(t) ==> r.id < g.born
  {
    hide StatesMatch, SlotsOk, TaskOk, FrontOk;
    forall r | r in InFlight(t) ensures r.id < g.born {
      assert r in Elements(g.runners) + InFlight(t);
    }
  }

  lemma PromoteGood(s: Service, e: Event)
    requires Good(s) && e.Promote? && Enabled(s, e)
    ensures Good(Next(s, e))
  {
    hide Settled, TaskOk, PromoteReg;
    var t := s.tasks[0];
    PromoteRolling(s.reg, t, s.told, s.ready, e.up);
    ProbedIsOld(s.reg, t, s.told, s.ready);
    NrUntold(s.reg, t, s.told, s.ready);
    var n := Next(s, e);
    forall r | r in n.reg.runners ensures r !in s.told {
      assert r in Elements(n.reg.runners);
    }
  }

  lemma NrUntold(g: Reg, t: Task, told: set<Runner>, ready: set<Runner>)
    requires Rolling(g, t, told, ready) && t.phase.Probing?
    ensures t.phase.nr !in told
  {
    hide Consistent, FrontOk;
  }

  lemma DrainStopGood(s: Service, e: Event)
    requires Good(s) && e.DrainStop? && Enabled(s, e)
    ensures Good(Next(s, e))
  {
    hide Settled, TaskOk, WriteStatus;
    DrainStopRolling(s.reg, s.tasks[0], s.told, s.ready, e.r);
    ProbedIsOld(s.reg, s.tasks[0], s.told, s.ready);
  }

  lemma DrainRemoveGood(s: Service, e: Event)
    requires Good(s) && e.DrainRemove? && Enabled(s, e)
    ensures Good(Next(s, e))
  {
    hide Settled, TaskOk;
    DrainRemoveRolling(s.reg, s.tasks[0], s.told, s.ready, e.r);
  }

  lemma FinishGood(s: Service, e: Event)
    requires Good(s) && e.Finish? && Enabled(s, e)
    ensures Good(Next(s, e))
  {
    hide Settled, TaskOk, History;
    assert Next(s, e).tasks == [];
    assert InFlight(s.tasks[0]) == {} && s.tasks[0].drains + s.tasks[0].dying == {};
    assert Settled(s.reg, {}, {});
    FlagIrrelevant(s.reg, false);
  }

  lemma FlagIrrelevant(g: Reg, flag: bool)
    requires Settled(g, {}, {})
    ensures Settled(g.(reloading := flag), {}, {})
  {
  }

  lemma CommandGood(s: Service, e: Event)
    requires Good(s) && Enabled(s, e) && Orderly(s, e) && FreshAddrs(s, e)
    requires e.Start? || e.StopFront? || e.Terminate? || e.Restart? || e.DeleteBegin? || e.DeleteEnd? || e.Report?
    ensures Good(Next(s, e))
  {
    hide Settled, TaskOk, History, Launch, Distinct, WriteStatus;
    if s.reg.front.Some? { FrontSpec(s); }
    if Active(s) { ActiveRegistered(s); }
    match e {
      case Start(request, runnable, addrs, up) =>
        if runnable && !(s.reg.proc.Some? && AnyRunning(s.reg)) {
          LaunchedGood(s, if s.reg.proc.Some? then s.reg.proc.value.spec else request, addrs, up);
        }
      case StopFront => FrontClosed(s);
      case Terminate(r) => ReportGood(s, r, Stopped);
      case Restart(addrs, up) =>
        if s.reg.proc.Some? { LaunchedGood(s, s.reg.proc.value.spec, addrs, up); }
      case Report(r, status) => ReportGood(s, r, status);
      case _ => Unregistering(s, e);
    }
  }

  lemma FrontClosed(s: Service)
    requires Good(s)
    ensures Good(s.(reg := s.reg.(front := None)))
  {
    hide Consistent, History, TaskOk;
    if Active(s) {
      if s.tasks != [] { TaskIgnores(s.tasks[0], s.reg, s.told, s.ready); }
      ActiveRegistered(s);
      ConsistentIgnores(s.reg, TaskRunners(s.tasks), if s.tasks == [] then {} else s.tasks[0].drains + s.tasks[0].dying);
    }
  }

  lemma ConsistentIgnores(g: Reg, others: set<Runner>, leaving: set<Runner>)
    requires Consistent(g, others, leaving)
    ensures Consistent(g.(front := None), others, leaving)
  {
  }

  lemma TaskIgnores(t: Task, g: Reg, told: set<Runner>, ready: set<Runner>)
    requires Rolling(g, t, told, ready)
    ensures g.proc.Some? && TaskOk(t, g.(front := None), told, ready)
  {
    hide FreshRunners, StatesMatch, SlotsOk, FrontOk;
  }

  lemma Unregistering(s: Service, e: Event)
    requires Good(s) && Enabled(s, e) && Orderly(s, e) && (e.DeleteBegin? || e.DeleteEnd?)
    ensures Good(Next(s, e))
  {
    hide Settled, Rolling;
  }

  lemma StepKeepsGood(s: Service, e: Event)
    requires Good(s) && Enabled(s, e) && Orderly(s, e) && FreshAddrs(s, e)
    ensures Good(Next(s, e))
  {
    hide Good, Next;
    match e {
      case Reload(_, _, _) => ReloadGood(s, e);
      case Scale(_, _, _, _) => ScaleGood(s, e);
      case Spawn(_, _) => SpawnGood(s, e);
      case Abort(_) => AbortGood(s, e);
      case Promote(_, _) => PromoteGood(s, e);
      case DrainStop(_, _) => DrainStopGood(s, e);
      case DrainRemove(_, _) => DrainRemoveGood(s, e);
      case Finish(_) => FinishGood(s, e);
      case _ => CommandGood(s, e);
    }
  }

  lemma ScaleGood(s: Service, e: Event)
    requires Good(s) && e.Scale? && Enabled(s, e) && Orderly(s, e) && FreshAddrs(s, e)
    ensures Good(Next(s, e))
  {
    hide Good;
    if !ScaleAccepted(s.reg, e.target) {
      assert Next(s, e) == s;
    } else if e.target > |s.reg.runners| {
      ScaleUpGood(s, e);
    } else {
      ScaleDownGood(s, e);
    }
  }

  // The invariant holds in every state of every orderly run.
  lemma {:induction false} GoodForever(ss: seq<Service>, es: seq<Event>, i: nat)
    requires OrderlyRun(ss, es) && Init(ss[0]) && i < |ss|
    ensures Good(ss[i])
  {
    if i > 0 {
      GoodForever(ss, es, i - 1);
      hide Good, Next, Enabled;
      StepKeepsGood(ss[i - 1], es[i - 1]);
    }
  }
}
