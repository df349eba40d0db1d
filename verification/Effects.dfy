// What the commands of the daemon do to one service, spelled out instance by
// instance: which runners there are afterwards, with which identity, index, slot
// and address, which entries, and what the front proxy publishes.
module Effects {
  import opened Basics
  import opened InstanceList
  import opened Registry
  import opened Protocol
  import opened Invariants
  import opened AnyRun
  import opened Discipline

  // ---- new instances ----

  // The k-th instance created after state g, for a slot that the address search
  // answers with addrs[slot], if it answers at all.
  function NewAt(g: Reg, k: nat, slot: nat, spec: Spec, addrs: seq<string>): Runner {
    Runner(g.born + k, g.nextIdx + k, slot, if spec.port > 0 && slot < |addrs| then addrs[slot] else "")
  }

  ghost predicate IsNew(r: Runner, g: Reg, k: nat, slot: nat, spec: Spec, addrs: seq<string>) {
    r == NewAt(g, k, slot, spec, addrs)
  }

  ghost predicate IsStarting(st: InstanceState, r: Runner) {
    st == InstanceState(r.index, r.slot, Starting, r.addr)
  }

  // h has the instances of g and, behind them, new ones for the slots in
  // [from, upto), each with a starting entry.
  ghost predicate GrewTo(g: Reg, h: Reg, spec: Spec, from: nat, upto: nat, addrs: seq<string>)
    requires g.proc.Some? && from <= upto
  {
    var n, l := |g.runners|, g.proc.value.states;
    && |h.runners| == n + upto - from
    && (forall k :: 0 <= k < n ==> h.runners[k] == g.runners[k])
    && (forall k :: n <= k < |h.runners| ==> IsNew(h.runners[k], g, k - n, from + k - n, spec, addrs))
    && h.proc.Some? && h.proc.value.spec == g.proc.value.spec
    && |h.proc.value.states| == |l| + upto - from
    && (forall k :: 0 <= k < |l| ==> h.proc.value.states[k] == l[k])
    && (forall j :: |l| <= j < |h.proc.value.states| ==> IsStarting(h.proc.value.states[j], h.runners[j - |l| + n]))
    && h.nextIdx == g.nextIdx + upto - from && h.born == g.born + upto - from
    && h.reloading == g.reloading
  }

  ghost predicate EntriesBelow(l: seq<InstanceState>, nextIdx: nat) {
    forall k :: 0 <= k < |l| ==> l[k].index < nextIdx
  }

  lemma AddedInstance(g: Reg, spec: Spec, slot: nat, addrs: seq<string>)
    requires g.proc.Some? && EntriesBelow(g.proc.value.states, g.nextIdx)
    ensures var h, r := AddInstance(g, spec, slot, Found(addrs, slot)), NextRunner(g, spec, slot, Found(addrs, slot));
            && IsNew(r, g, 0, slot, spec, addrs) && h.runners == g.runners + [r]
            && h.proc.Some? && h.proc.value.spec == g.proc.value.spec
            && h.proc.value.states == g.proc.value.states + [StartingState(r)] && IsStarting(StartingState(r), r)
            && h.nextIdx == g.nextIdx + 1 && h.born == g.born + 1 && h.reloading == g.reloading && h.front == g.front
            && EntriesBelow(h.proc.value.states, h.nextIdx)
  {
    UpsertMissing(g.proc.value.states, StartingState(NextRunner(g, spec, slot, Found(addrs, slot))));
  }

  lemma {:induction false} GrowExactly(g: Reg, spec: Spec, from: nat, upto: nat, addrs: seq<string>)
    requires g.proc.Some? && from <= upto && EntriesBelow(g.proc.value.states, g.nextIdx)
    ensures GrewTo(g, Grow(g, spec, from, upto, addrs), spec, from, upto, addrs)
    ensures Grow(g, spec, from, upto, addrs).front == g.front
    decreases upto - from
  {
    hide EntriesBelow, AddInstance, NextRunner, Found, StartingState;
    if from < upto {
      var m := AddInstance(g, spec, from, Found(addrs, from));
      AddedInstance(g, spec, from, addrs);
      GrowExactly(m, spec, from + 1, upto, addrs);
      GrewFurther(g, m, Grow(m, spec, from + 1, upto, addrs), spec, from, upto, addrs);
    }
  }

  lemma GrewFurther(g: Reg, m: Reg, h: Reg, spec: Spec, from: nat, upto: nat, addrs: seq<string>)
    requires g.proc.Some? && m.proc.Some? && from < upto
    requires GrewTo(g, m, spec, from, from + 1, addrs) && GrewTo(m, h, spec, from + 1, upto, addrs)
    ensures GrewTo(g, h, spec, from, upto, addrs)
  {
    hide IsStarting;
    var n, l := |g.runners|, |g.proc.value.states|;
    assert h.runners[n] == m.runners[n] && h.proc.value.states[l] == m.proc.value.states[l];
    forall k | n <= k < |h.runners| ensures IsNew(h.runners[k], g, k - n, from + k - n, spec, addrs) {
      if k > n { assert IsNew(h.runners[k], m, k - (n + 1), from + 1 + k - (n + 1), spec, addrs); }
    }
  }

  // ---- launching ----

  // What the front proxy publishes once it has been synchronised.
  ghost predicate Synced(before: Option<seq<string>>, after: Option<seq<string>>, spec: Spec, rs: seq<Runner>, up: bool) {
    after == if spec.mode == Proxy && spec.port != 0 && (before.Some? || up) then Some(Upstreams(rs)) else before
  }

  // h tracks exactly one new instance per slot of the configured count, lists
  // exactly their entries, all starting, and has synchronised its front proxy.
  ghost predicate LaunchedFrom(g: Reg, h: Reg, spec: Spec, addrs: seq<string>, up: bool) {
    var n := if spec.instances < 1 then 1 else spec.instances;
    && |h.runners| == n && (forall k :: 0 <= k < n ==> IsNew(h.runners[k], g, k, k, spec, addrs))
    && h.proc.Some? && h.proc.value.spec == spec && |h.proc.value.states| == n
    && (forall k :: 0 <= k < n ==> IsStarting(h.proc.value.states[k], h.runners[k]))
    && h.nextIdx == g.nextIdx + n && h.born == g.born + n && h.reloading == g.reloading
    && Synced(g.front, h.front, spec, h.runners, up)
  }

  lemma LaunchExactly(g: Reg, spec: Spec, addrs: seq<string>, up: bool)
    ensures LaunchedFrom(g, Launch(g, spec, addrs, up), spec, addrs, up)
  {
    hide Grow, GrewTo, LaunchedFrom, Upstreams;
    var c := g.(proc := Some(Process(spec, [])), runners := []);
    var d := Grow(c, spec, 0, spec.Count(), addrs);
    GrowExactly(c, spec, 0, spec.Count(), addrs);
    GrewFromNothing(g, d, Launch(g, spec, addrs, up).front, spec, addrs, up);
  }

  lemma GrewFromNothing(g: Reg, d: Reg, front: Option<seq<string>>, spec: Spec, addrs: seq<string>, up: bool)
    requires GrewTo(g.(proc := Some(Process(spec, [])), runners := []), d, spec, 0, spec.Count(), addrs)
    requires Synced(g.front, front, spec, d.runners, up)
    ensures LaunchedFrom(g, d.(front := front), spec, addrs, up)
  {
    hide IsStarting, IsNew, Synced;
    var c := g.(proc := Some(Process(spec, [])), runners := []);
    forall k | 0 <= k < |d.runners| ensures IsNew(d.runners[k], g, k, k, spec, addrs) {
      assert IsNew(d.runners[k], c, k - 0, 0 + k - 0, spec, addrs);
      NewFromSameCounters(d.runners[k], c, g, k, k, spec, addrs);
    }
  }

  lemma NewFromSameCounters(r: Runner, c: Reg, g: Reg, k: nat, slot: nat, spec: Spec, addrs: seq<string>)
    requires c.born == g.born && c.nextIdx == g.nextIdx
    ensures IsNew(r, c, k, slot, spec, addrs) == IsNew(r, g, k, slot, spec, addrs)
  {
  }

  // ---- scaling ----

  // The instances of the slots from the target on are gone, with their entries.
  ghost predicate ShrunkTo(g: Reg, h: Reg, target: nat)
    requires g.proc.Some?
  {
    && |h.runners| == target
    && (forall r :: r in h.runners <==> r in g.runners && r.slot < target)
    && (forall i, j :: 0 <= i < j < |h.runners| ==> h.runners[i].slot < h.runners[j].slot)
    && h.proc.Some? && h.nextIdx == g.nextIdx && h.born == g.born && h.reloading == g.reloading
    && (forall index {:trigger Lookup(h.proc.value.states, index)} ::
          Lookup(h.proc.value.states, index) ==
            if exists r :: r in g.runners && r.slot >= target && r.index == index then None
            else Lookup(g.proc.value.states, index))
  }

  // What a scale to `target` makes of g.
  ghost predicate ScaledTo(g: Reg, h: Reg, target: int, addrs: seq<string>, up: bool) {
    if target >= 1 && g.proc.Some? && |g.runners| > 0 && target != |g.runners| then
      var spec := g.proc.value.spec;
      && |h.runners| == target && h.proc.Some? && h.proc.value.spec == spec.(instances := target)
      && Synced(g.front, h.front, spec, h.runners, up)
      && (if target > |g.runners|
          then GrewTo(g, h.(proc := Some(h.proc.value.(spec := spec))), spec, |g.runners|, target, addrs)
          else ShrunkTo(g, h, target))
    else
      h == g
  }

  lemma {:induction false} LookupAfterRemovals(proc: Option<Process>, rs: seq<Runner>, index: nat)
    requires proc.Some?
    ensures RemoveStates(proc, rs).Some?
    ensures Lookup(RemoveStates(proc, rs).value.states, index) ==
              if exists r :: r in rs && r.index == index then None else Lookup(proc.value.states, index)
    decreases rs
  {
    hide Lookup, Without;
    if rs != [] {
      LookupAfterRemovals(RemoveState(proc, rs[0].index), rs[1..], index);
      LookupWithout(proc.value.states, rs[0].index, index);
      assert forall q :: q in rs <==> q == rs[0] || q in rs[1..];
    }
  }

  lemma ScaleDownExactly(g: Reg, target: int, sorted: seq<Runner>, addrs: seq<string>, up: bool)
    requires ScaleAccepted(g, target) && target < |g.runners| == |sorted| && SlotsOk(g.runners) && IsSortOf(sorted, g.runners)
    ensures ShrunkTo(g, ScaleReg(g, target, sorted, addrs, up), target)
  {
    hide SlotsOk, IsSortOf, RemoveStates, Upstreams, Lookup;
    var drop := sorted[target..];
    var h := ScaleReg(g, target, sorted, addrs, up);
    KeptBySlot(sorted, g.runners, target);
    SortedSlots(sorted, g.runners);
    SpecAfterRemovals(g.proc, drop);
    forall r ensures r in drop <==> r in g.runners && r.slot >= target {
      DroppedBySlot(sorted, g.runners, target, r);
    }
    forall index {:trigger Lookup(h.proc.value.states, index)}
      ensures Lookup(h.proc.value.states, index) ==
                if exists r :: r in g.runners && r.slot >= target && r.index == index then None
                else Lookup(g.proc.value.states, index)
    {
      LookupAfterRemovals(g.proc, drop, index);
    }
  }

  lemma DroppedBySlot(sorted: seq<Runner>, rs: seq<Runner>, target: nat, r: Runner)
    requires |sorted| >= target && Elements(sorted) == Elements(rs)
    requires forall i :: 0 <= i < |sorted| ==> sorted[i].slot == i
    ensures r in sorted[target..] <==> r in rs && r.slot >= target
  {
    assert r in rs <==> r in Elements(sorted);
    if r in rs && r.slot >= target { assert sorted[target..][r.slot - target] == sorted[r.slot]; }
    if r in sorted[target..] { assert r in sorted; }
  }

  lemma ScaleRegExactly(g: Reg, target: int, sorted: seq<Runner>, addrs: seq<string>, up: bool)
    requires IsSortOf(sorted, g.runners) && |sorted| == |g.runners| && SlotsOk(g.runners)
    requires g.proc.Some? ==> EntriesBelow(g.proc.value.states, g.nextIdx)
    ensures ScaledTo(g, ScaleReg(g, target, sorted, addrs, up), target, addrs, up)
  {
    hide Grow, RemoveStates, IsSortOf, SlotsOk, GrewTo, ShrunkTo, EntriesBelow, Upstreams;
    if ScaleAccepted(g, target) {
      var spec := g.proc.value.spec;
      if target > |g.runners| {
        GrowExactly(g, spec, |g.runners|, target, addrs);
        GrewCounted(g, Grow(g, spec, |g.runners|, target, addrs), ScaleReg(g, target, sorted, addrs, up).front, target, spec, addrs);
      } else {
        ScaleDownExactly(g, target, sorted, addrs, up);
        SpecAfterRemovals(g.proc, sorted[target..]);
        ShrunkSize(g, ScaleReg(g, target, sorted, addrs, up), target);
      }
    }
  }

  lemma ShrunkSize(g: Reg, h: Reg, target: nat)
    requires g.proc.Some? && ShrunkTo(g, h, target)
    ensures |h.runners| == target && h.proc.Some?
  {
  }

  // scale is accepted exactly for a target of at least one, other than the
  // present number, of a registered service with tracked instances; what it then
  // does, instance by instance; otherwise it changes nothing.
  lemma ScaleExactly(s: Service, e: Event)
    requires Good(s) && e.Scale? && Enabled(s, e)
    ensures var n := Next(s, e);
            if e.target >= 1 && s.reg.proc.Some? && s.reg.runners != []
            then |n.reg.runners| == e.target && n.reg.proc.Some? &&
                 (|s.reg.runners| != e.target ==> n.reg.proc.value.spec == s.reg.proc.value.spec.(instances := e.target))
            else n == s
    ensures ScaledTo(s.reg, Next(s, e).reg, e.target, e.addrs, e.up) && Next(s, e) == s.(reg := Next(s, e).reg)
  {
    hide Good, ScaleReg, IsSortOf, SlotsOk, GrewTo, ShrunkTo, EntriesBelow, Upstreams;
    if s.reg.runners == [] {
      ScaleOfNothing(s.reg, e.target, e.sorted, e.addrs, e.up);
    } else {
      ScaleGround(s);
      ScaleRegExactly(s.reg, e.target, e.sorted, e.addrs, e.up);
    }
  }

  lemma ScaleOfNothing(g: Reg, target: int, sorted: seq<Runner>, addrs: seq<string>, up: bool)
    requires g.runners == [] == sorted
    ensures ScaleReg(g, target, sorted, addrs, up) == g
  {
  }

  lemma GrewCounted(g: Reg, h: Reg, front: Option<seq<string>>, target: nat, spec: Spec, addrs: seq<string>)
    requires g.proc.Some? && spec == g.proc.value.spec && |g.runners| <= target
    requires GrewTo(g, h, spec, |g.runners|, target, addrs)
    ensures |h.runners| == target && h.proc.Some? && h.proc.value.spec == spec
    ensures var z := h.(front := front, proc := SetInstances(h.proc, target));
            GrewTo(g, z.(proc := Some(z.proc.value.(spec := spec))), spec, |g.runners|, target, addrs)
  {
    hide IsNew, IsStarting;
  }

  lemma ScaleGround(s: Service)
    requires Good(s) && s.reg.runners != []
    ensures s.reg.proc.Some? && SlotsOk(s.reg.runners) && EntriesBelow(s.reg.proc.value.states, s.reg.nextIdx)
  {
    hide SlotsOk, FrontOk, TaskOk;
    var l := s.reg.proc.value.states;
    forall k | 0 <= k < |l| ensures l[k].index < s.reg.nextIdx {
      assert l[k].index in Keys(l);
    }
  }

  // ---- a replacement ----

  // The replacement that a reload starts for its current slot: what it is, and
  // the starting entry it gets; nothing else changes.
  lemma SpawnExactly(s: Service, e: Event)
    requires Good(s) && e.Spawn? && Enabled(s, e)
    ensures |s.tasks| == |Next(s, e).tasks| == 1 && s.reg.proc.Some? && Next(s, e).reg.proc.Some?
    ensures var t, n := s.tasks[0], Next(s, e);
            var r := Runner(s.reg.born, s.reg.nextIdx, t.at, if t.spec.port > 0 then e.found else "");
            && n.tasks[0] == t.(phase := Probing(r))
            && n.reg.proc.value == s.reg.proc.value.(states := s.reg.proc.value.states + [InstanceState(r.index, r.slot, Starting, r.addr)])
            && n.reg.runners == s.reg.runners && n.reg.front == s.reg.front
            && n.reg.nextIdx == s.reg.nextIdx + 1
  {
    hide Settled, TaskOk, History, FreshRunners, StatesMatch;
    assert s.tasks != [] && Rolling(s.reg, s.tasks[0], s.told, s.ready);
    ScaleGround(s);
    PlanSlot(s.reg, s.tasks[0], s.told, s.ready);
    UpsertMissing(s.reg.proc.value.states, StartingState(NextRunner(s.reg, s.tasks[0].spec, s.tasks[0].at, e.found)));
  }

  // ---- one slot after the other ----

  // h is g after a reload, on its own, has taken over the slots below `taken`
  // and created `made` instances: in each position the list holds a new instance
  // if its slot is one of them and the old one otherwise; the new ones have
  // starting entries and the old ones their old entries.
  ghost predicate RolledTo(g: Reg, h: Reg, spec: Spec, taken: nat, made: nat, addrs: seq<string>, up: bool) {
    && |h.runners| == |g.runners|
    && (forall p :: 0 <= p < |h.runners| ==>
          if g.runners[p].slot < taken then IsNew(h.runners[p], g, g.runners[p].slot, g.runners[p].slot, spec, addrs)
          else h.runners[p] == g.runners[p])
    && g.proc.Some? && h.proc.Some? && h.proc.value.spec == g.proc.value.spec
    && (forall p :: 0 <= p < |h.runners| ==> RolledEntry(g.proc.value.states, h.proc.value.states, h.runners[p], taken))
    && h.nextIdx == g.nextIdx + made && h.born == g.born + made
    && h.front == if spec.mode == Proxy && spec.port != 0 && taken > 0 && (g.front.Some? || up) then Some(Upstreams(h.runners)) else g.front
  }

  ghost predicate RolledEntry(before: seq<InstanceState>, after: seq<InstanceState>, r: Runner, taken: nat) {
    if r.slot < taken then Lookup(after, r.index).Some? && IsStarting(Lookup(after, r.index).value, r)
    else Lookup(after, r.index) == Lookup(before, r.index)
  }

  lemma NothingRolled(g: Reg, spec: Spec, addrs: seq<string>, up: bool)
    requires g.proc.Some?
    ensures RolledTo(g, g, spec, 0, 0, addrs, up)
  {
  }

  // The tracked instances before a reload: their slots and indices differ, and
  // the indices are used up.
  ghost predicate Ground(g: Reg) {
    SlotsOk(g.runners) && Numbered(Elements(g.runners), g.nextIdx)
  }

  // A change of entries that are none of the tracked instances' own.
  lemma EntriesElsewhere(g: Reg, h: Reg, proc: Option<Process>, spec: Spec, taken: nat, made: nat, addrs: seq<string>, up: bool)
    requires RolledTo(g, h, spec, taken, made, addrs, up) && proc.Some? && proc.value.spec == h.proc.value.spec
    requires forall p :: 0 <= p < |h.runners| ==>
               Lookup(proc.value.states, h.runners[p].index) == Lookup(h.proc.value.states, h.runners[p].index)
    ensures RolledTo(g, h.(proc := proc), spec, taken, made, addrs, up)
  {
    hide IsNew, IsStarting, Upstreams, Lookup;
  }

  // The indices of the tracked instances: those of the new ones come after the
  // old ones'.
  lemma RolledIndices(g: Reg, h: Reg, spec: Spec, taken: nat, made: nat, addrs: seq<string>, up: bool, p: nat)
    requires Ground(g) && RolledTo(g, h, spec, taken, made, addrs, up) && taken <= made && p < |h.runners|
    ensures h.runners[p].slot == g.runners[p].slot && h.runners[p].index < h.nextIdx
    ensures forall r :: r in g.runners && (r.slot < taken || r.slot != g.runners[p].slot) ==> r.index != h.runners[p].index
  {
    hide RolledEntry, Upstreams;
    assert g.runners[p] in Elements(g.runners);
    forall r | r in g.runners && (r.slot < taken || r.slot != g.runners[p].slot) ensures r.index != h.runners[p].index {
      assert r in Elements(g.runners);
    }
  }

  lemma RollsOn(g: Reg, h: Reg, spec: Spec, taken: nat, addrs: seq<string>, up: bool, prev: Runner)
    requires Ground(g) && RolledTo(g, h, spec, taken, taken, addrs, up) && prev in g.runners && prev.slot == taken
    ensures var nr := NextRunner(h, spec, taken, Found(addrs, taken));
            RolledTo(g, PromoteReg(Create(h, spec, taken, Found(addrs, taken)), spec, prev, nr, up), spec, taken + 1, taken + 1, addrs, up)
  {
    hide Lookup, Upsert, Replace, Upstreams, MarkDraining, SetState, IsNew, IsStarting, Ground;
    var found := Found(addrs, taken);
    var nr, m := NextRunner(h, spec, taken, found), Create(h, spec, taken, found);
    var n := PromoteReg(m, spec, prev, nr, up);
    IsNextNew(g, h, spec, taken, addrs);
    CreateKeepsFront(h, spec, taken, found);
    PromoteSpec(m, spec, prev, nr, up);
    var i := SwappedAt(g, h, spec, taken, addrs, up, prev, nr);
    forall p | 0 <= p < |n.runners|
      ensures RolledEntry(g.proc.value.states, n.proc.value.states, n.runners[p], taken + 1)
    {
      NewEntry(g, h, spec, taken, addrs, up, prev, i, p);
    }
  }

  lemma IsNextNew(g: Reg, h: Reg, spec: Spec, taken: nat, addrs: seq<string>)
    requires h.nextIdx == g.nextIdx + taken && h.born == g.born + taken
    ensures IsNew(NextRunner(h, spec, taken, Found(addrs, taken)), g, taken, taken, spec, addrs)
  {
  }

  // The replaced instance is where it was in the old list.
  lemma SwappedAt(g: Reg, h: Reg, spec: Spec, taken: nat, addrs: seq<string>, up: bool, prev: Runner, nr: Runner) returns (i: nat)
    requires Ground(g) && RolledTo(g, h, spec, taken, taken, addrs, up) && prev in g.runners && prev.slot == taken
    ensures i < |g.runners| == |h.runners| && g.runners[i] == prev && Replace(h.runners, prev, nr) == h.runners[i := nr]
    ensures forall p :: 0 <= p < |g.runners| && p != i ==> g.runners[p].slot != taken
    ensures prev.index < g.nextIdx
  {
    hide RolledEntry, Replace, Upstreams;
    i :| 0 <= i < |g.runners| && g.runners[i] == prev;
    assert prev in Elements(g.runners);
    assert h.runners[i] == prev;
    var j := ReplaceTracked(h.runners, prev, nr);
    RolledIndices(g, h, spec, taken, taken, addrs, up, j);
    assert i == j;
  }

  lemma NewEntry(g: Reg, h: Reg, spec: Spec, taken: nat, addrs: seq<string>, up: bool, prev: Runner, i: nat, p: nat)
    requires Ground(g) && RolledTo(g, h, spec, taken, taken, addrs, up) && prev in g.runners && prev.slot == taken
    requires i < |h.runners| && g.runners[i] == prev && p < |h.runners| && prev.index < g.nextIdx
    requires p != i ==> g.runners[p].slot != taken
    ensures var found := Found(addrs, taken);
            var nr := NextRunner(h, spec, taken, found);
            var n := PromoteReg(Create(h, spec, taken, found), spec, prev, nr, up);
            n.proc.Some? && RolledEntry(g.proc.value.states, n.proc.value.states, if p == i then nr else h.runners[p], taken + 1)
  {
    hide Lookup, PromoteReg, Upstreams, SlotsOk;
    var found := Found(addrs, taken);
    var nr, m := NextRunner(h, spec, taken, found), Create(h, spec, taken, found);
    var r := if p == i then nr else h.runners[p];
    if p != i { RolledIndices(g, h, spec, taken, taken, addrs, up, p); }
    PromotedEntry(h, m, PromoteReg(m, spec, prev, nr, up), spec, taken, found, prev, up, r.index);
    assert RolledEntry(g.proc.value.states, h.proc.value.states, h.runners[p], taken);
  }

  // A promotion writes the new instance's entry and that of the replaced one.
  lemma PromotedEntry(h: Reg, m: Reg, n: Reg, spec: Spec, slot: nat, found: string, prev: Runner, up: bool, index: nat)
    requires h.proc.Some? && m == Create(h, spec, slot, found) && index != prev.index && prev.index != h.nextIdx
    requires n == PromoteReg(m, spec, prev, NextRunner(h, spec, slot, found), up)
    ensures n.proc.Some? && n.proc.value.spec == h.proc.value.spec
    ensures Lookup(n.proc.value.states, index) ==
              if index == h.nextIdx then Some(StartingState(NextRunner(h, spec, slot, found))) else Lookup(h.proc.value.states, index)
  {
    hide Lookup, Upsert, Replace, Upstreams;
    var l, nr := h.proc.value.states, NextRunner(h, spec, slot, found);
    LookupUpsert(l, StartingState(nr), index);
    var l', found' := m.proc.value.states, Lookup(m.proc.value.states, prev.index);
    if found'.Some? { LookupUpsert(l', found'.value.(status := Draining), index); }
  }

  lemma RollsBack(g: Reg, h: Reg, spec: Spec, taken: nat, addrs: seq<string>, up: bool)
    requires Ground(g) && RolledTo(g, h, spec, taken, taken, addrs, up)
    ensures var m := Create(h, spec, taken, Found(addrs, taken));
            RolledTo(g, m.(proc := RemoveState(m.proc, h.nextIdx)), spec, taken, taken + 1, addrs, up)
  {
    hide Lookup, Upsert, Without, Upstreams, RolledTo;
    var m := Create(h, spec, taken, Found(addrs, taken));
    var proc := RemoveState(m.proc, h.nextIdx);
    RolledProc(g, h, spec, taken, taken, addrs, up);
    forall p | 0 <= p < |h.runners|
      ensures Lookup(proc.value.states, h.runners[p].index) == Lookup(h.proc.value.states, h.runners[p].index)
    {
      RolledIndices(g, h, spec, taken, taken, addrs, up, p);
      LookupUpsert(h.proc.value.states, StartingState(NextRunner(h, spec, taken, Found(addrs, taken))), h.runners[p].index);
      LookupWithout(m.proc.value.states, h.nextIdx, h.runners[p].index);
    }
    EntriesElsewhere(g, h, proc, spec, taken, taken, addrs, up);
    MadeOneMore(g, h.(proc := proc), spec, taken, taken, addrs, up);
  }

  lemma RolledProc(g: Reg, h: Reg, spec: Spec, taken: nat, made: nat, addrs: seq<string>, up: bool)
    requires RolledTo(g, h, spec, taken, made, addrs, up)
    ensures g.proc.Some? && h.proc.Some? && |h.runners| == |g.runners|
  {
  }

  lemma MadeOneMore(g: Reg, h: Reg, spec: Spec, taken: nat, made: nat, addrs: seq<string>, up: bool)
    requires RolledTo(g, h, spec, taken, made, addrs, up)
    ensures RolledTo(g, h.(nextIdx := h.nextIdx + 1, born := h.born + 1), spec, taken, made + 1, addrs, up)
  {
    hide IsNew, RolledEntry, Upstreams;
  }

  lemma DrainRolls(g: Reg, h: Reg, spec: Spec, taken: nat, made: nat, addrs: seq<string>, up: bool, r: Runner)
    requires Ground(g) && RolledTo(g, h, spec, taken, made, addrs, up) && taken <= made && r in g.runners && r.slot < taken
    ensures RolledTo(g, h.(proc := RemoveState(WriteStatus(h.proc, r.index, Stopped), r.index)), spec, taken, made, addrs, up)
  {
    hide Lookup, Upsert, Without, Upstreams, RolledTo;
    RolledProc(g, h, spec, taken, made, addrs, up);
    var l := h.proc.value.states;
    var st := if Lookup(l, r.index).Some? then Lookup(l, r.index).value.(status := Stopped) else InstanceState(r.index, 0, Stopped, "");
    var proc := RemoveState(WriteStatus(h.proc, r.index, Stopped), r.index);
    assert proc == Some(Process(h.proc.value.spec, Without(Upsert(l, st), r.index)));
    forall p | 0 <= p < |h.runners|
      ensures Lookup(proc.value.states, h.runners[p].index) == Lookup(l, h.runners[p].index)
    {
      RolledIndices(g, h, spec, taken, made, addrs, up, p);
      LookupUpsert(l, st, h.runners[p].index);
      LookupWithout(Upsert(l, st), r.index, h.runners[p].index);
    }
    EntriesElsewhere(g, h, proc, spec, taken, made, addrs, up);
  }

  lemma FlagRolls(g: Reg, h: Reg, spec: Spec, taken: nat, made: nat, addrs: seq<string>, up: bool, flag: bool)
    requires RolledTo(g, h, spec, taken, made, addrs, up)
    ensures RolledTo(g, h.(reloading := flag), spec, taken, made, addrs, up)
  {
    hide IsNew, RolledEntry, Upstreams;
  }

  lemma RollGround(s: Service)
    requires Good(s) && s.reg.runners != []
    ensures Ground(s.reg) && s.reg.proc.Some?
  {
    hide SlotsOk, FrontOk, TaskOk, StatesMatch;
    forall a, b | a in Elements(s.reg.runners) && b in Elements(s.reg.runners) && a.index == b.index ensures a == b {
      assert a in Live(s) && b in Live(s);
      assert a == b || Apart(a, b);
    }
  }

  // What it comes to for each tracked instance and for the front proxy.
  lemma RolledMeans(g: Reg, h: Reg, spec: Spec, taken: nat, made: nat, addrs: seq<string>, up: bool)
    requires Ground(g) && RolledTo(g, h, spec, taken, made, addrs, up) && taken <= made
    ensures forall r :: r in h.runners && r.slot < taken ==>
              && r.addr == (if spec.port > 0 && r.slot < |addrs| then addrs[r.slot] else "")
              && InstanceState(r.index, r.slot, Starting, r.addr) in h.proc.value.states
  {
    hide Upstreams, Lookup;
    forall r | r in h.runners && r.slot < taken
      ensures r.addr == (if spec.port > 0 && r.slot < |addrs| then addrs[r.slot] else "")
      ensures InstanceState(r.index, r.slot, Starting, r.addr) in h.proc.value.states
    {
      var p :| 0 <= p < |h.runners| && h.runners[p] == r;
      RolledIndices(g, h, spec, taken, made, addrs, up, p);
      assert IsNew(h.runners[p], g, g.runners[p].slot, g.runners[p].slot, spec, addrs);
      assert RolledEntry(g.proc.value.states, h.proc.value.states, h.runners[p], taken);
    }
  }
}
