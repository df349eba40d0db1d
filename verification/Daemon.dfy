// The daemon of internal/daemon/daemon.go: its maps, and its critical sections
// as methods that update them. Each method is proved to do to one service what
// Registry says, and nothing to the others.
module Daemon {
  import opened Basics
  import opened InstanceList
  import opened Registry
  import opened Sorting
  import opened Protocol
  import opened Invariants
  import opened ReloadResults
  import opened SoloReload
  import opened AnyRun
  import opened Discipline
  import opened Effects

  lemma GrowUnfolds(g: Reg, spec: Spec, from: nat, upto: nat, addrs: seq<string>)
    ensures Grow(g, spec, from, upto, addrs) ==
              if from >= upto then g else Grow(AddInstance(g, spec, from, Found(addrs, from)), spec, from + 1, upto, addrs)
  {
  }

  lemma NoUpstreams()
    ensures Upstreams([]) == []
  {
  }

  lemma {:induction false} ReplaceFirst(rs: seq<Runner>, prev: Runner, nw: Runner, i: nat)
    requires i < |rs| && rs[i] == prev && prev !in rs[..i]
    ensures Replace(rs, prev, nw) == rs[i := nw]
  {
    if i > 0 {
      assert rs[0] in rs[..i];
      assert rs[1..][..i - 1] == rs[..i][1..];
      ReplaceFirst(rs[1..], prev, nw, i - 1);
    }
  }

  class Daemon {
    var store: map<string, Process>
    var runners: map<string, seq<Runner>>
    var nextIdx: map<string, nat>
    var proxies: map<string, seq<string>>
    var reloading: map<string, bool>
    var born: map<string, nat>
    ghost var stopped: seq<(string, Runner)>   // every Stop so far, in order

    constructor (loaded: map<string, Process>)
      ensures stopped == []
      ensures forall name :: RegOf(name) == UNKNOWN.(proc := if name in loaded then Some(loaded[name]) else None)
    {
      store := loaded;
      runners, nextIdx, proxies, reloading, born := map[], map[], map[], map[], map[];
      stopped := [];
    }

    // The entries of one service in all the maps.
    function RegOf(name: string): Reg
      reads this
    {
      Reg(
        if name in store then Some(store[name]) else None,
        if name in runners then runners[name] else [],
        if name in nextIdx then nextIdx[name] else 0,
        if name in born then born[name] else 0,
        if name in proxies then Some(proxies[name]) else None,
        name in reloading && reloading[name])
    }

    twostate predicate Becomes(name: string, g: Reg)
      reads this
    {
      RegOf(name) == g && forall other :: other != name ==> RegOf(other) == old(RegOf(other))
    }

    // The service becomes g, the others stay, and nothing is stopped.
    twostate predicate OnlyChanges(name: string, g: Reg)
      reads this
    {
      Becomes(name, g) && stopped == old(stopped)
    }

    // The service becomes g, the others stay, and exactly these instances of it
    // are stopped, in this order.
    twostate predicate ChangesAndStops(name: string, g: Reg, rs: seq<Runner>)
      reads this
    {
      Becomes(name, g) && stopped == old(stopped) + Sent(name, rs)
    }

    // ---- the store, under its own lock ----

    method SetInstanceState(name: string, st: InstanceState)
      modifies this
      ensures OnlyChanges(name, old(RegOf(name)).(proc := SetState(old(RegOf(name)).proc, st)))
    {
      if name in store {
        store := store[name := store[name].(states := Upsert(store[name].states, st))];
      }
    }

    method RemoveInstanceState(name: string, index: nat)
      modifies this
      ensures OnlyChanges(name, old(RegOf(name)).(proc := RemoveState(old(RegOf(name)).proc, index)))
    {
      if name in store {
        store := store[name := store[name].(states := Without(store[name].states, index))];
      }
    }

    // A runner's own status write, as Stop and supervise do it.
    method SetInstanceStatus(name: string, index: nat, status: Status)
      modifies this
      ensures OnlyChanges(name, old(RegOf(name)).(proc := WriteStatus(old(RegOf(name)).proc, index, status)))
    {
      var found := if name in store then Lookup(store[name].states, index) else None;
      var st := if found.Some? then found.value else InstanceState(index, 0, Starting, "");
      SetInstanceState(name, st.(status := status));
    }

    // Stop, as far as the daemon sees it: the process ends, and its runner marks
    // its own entry.
    method Stop(name: string, r: Runner)
      modifies this
      ensures ChangesAndStops(name, old(RegOf(name)).(proc := WriteStatus(old(RegOf(name)).proc, r.index, Stopped)), [r])
    {
      SetInstanceStatus(name, r.index, Stopped);
      stopped := stopped + Sent(name, [r]);
    }

    // ---- helpers that run under d.mu ----

    method AllocIndexLocked(name: string) returns (idx: nat)
      modifies this
      ensures idx == old(RegOf(name)).nextIdx
      ensures OnlyChanges(name, old(RegOf(name)).(nextIdx := idx + 1))
    {
      idx := if name in nextIdx then nextIdx[name] else 0;
      nextIdx := nextIdx[name := idx + 1];
    }

    method NewRunner(name: string, index: nat, slot: nat, addr: string) returns (r: Runner)
      modifies this
      ensures r == Runner(old(RegOf(name)).born, index, slot, addr)
      ensures OnlyChanges(name, old(RegOf(name)).(born := r.id + 1))
    {
      r := Runner(if name in born then born[name] else 0, index, slot, addr);
      born := born[name := r.id + 1];
    }

    method UpstreamsLocked(name: string) returns (ups: seq<string>)
      ensures ups == Upstreams(RegOf(name).runners)
    {
      hide Upstreams;
      var rs := if name in runners then runners[name] else [];
      ups := [];
      assert Upstreams(rs[..0]) == [] by { NoUpstreams(); }
      for i := 0 to |rs|
        invariant ups == Upstreams(rs[..i])
      {
        assert rs[..i + 1] == rs[..i] + [rs[i]];
        UpstreamsSnoc(rs[..i], rs[i]);
        if rs[i].addr != "" {
          ups := ups + [rs[i].addr];
        }
      }
      assert rs[..|rs|] == rs;
    }

    method SyncProxyLocked(name: string, spec: Spec, up: bool)
      modifies this
      ensures OnlyChanges(name, Sync(old(RegOf(name)), spec, up))
      ensures Synced(old(RegOf(name)).front, RegOf(name).front, spec, RegOf(name).runners, up)
    {
      if spec.mode != Proxy || spec.port == 0 {
        return;
      }
      var ups := UpstreamsLocked(name);
      if name in proxies {
        proxies := proxies[name := ups];
        return;
      }
      if !up {
        return; // the front port could not be opened
      }
      proxies := proxies[name := ups];
    }

    // The part that launching, scaling up and reloading share.
    method CreateInstance(name: string, spec: Spec, slot: nat, found: string) returns (r: Runner)
      modifies this
      ensures r == NextRunner(old(RegOf(name)), spec, slot, found)
      ensures OnlyChanges(name, Create(old(RegOf(name)), spec, slot, found))
    {
      var idx := AllocIndexLocked(name);
      var addr := spec.HealthAddr(found);
      SetInstanceState(name, InstanceState(idx, slot, Starting, addr));
      r := NewRunner(name, idx, slot, addr);
    }

    method SetRunners(name: string, rs: seq<Runner>)
      modifies this
      ensures OnlyChanges(name, old(RegOf(name)).(runners := rs))
    {
      runners := runners[name := rs];
    }

    method StartInstancesLocked(name: string, spec: Spec, addrs: seq<string>, up: bool)
      requires RegOf(name).proc == Some(Process(spec, []))
      modifies this
      ensures OnlyChanges(name, Launch(old(RegOf(name)), spec, addrs, up))
      ensures LaunchedFrom(old(RegOf(name)), RegOf(name), spec, addrs, up)
    {
      hide Grow, Sync, Create, NextRunner, RegOf, LaunchedFrom;
      var n := spec.Count();
      var rs: seq<Runner> := [];
      ghost var c := RegOf(name).(runners := []);
      for slot := 0 to n
        invariant Grow(c, spec, 0, n, addrs) == Grow(RegOf(name).(runners := rs), spec, slot, n, addrs)
        invariant stopped == old(stopped)
        invariant forall other :: other != name ==> RegOf(other) == old(RegOf(other))
      {
        ghost var g := RegOf(name).(runners := rs);
        GrowUnfolds(g, spec, slot, n, addrs);
        CreateIgnoresRunners(RegOf(name), rs, spec, slot, Found(addrs, slot));
        var r := CreateInstance(name, spec, slot, Found(addrs, slot));
        rs := rs + [r];
      }
      GrowUnfolds(RegOf(name).(runners := rs), spec, n, n, addrs);
      SetRunners(name, rs);
      SyncProxyLocked(name, spec, up);
      LaunchExactly(old(RegOf(name)), spec, addrs, up);
    }

    method AnyRunningLocked(name: string) returns (any: bool)
      ensures any <==> AnyRunning(RegOf(name))
      ensures any <==> RegOf(name).runners != [] || (name in store &&
                         exists k :: 0 <= k < |store[name].states| &&
                                     (store[name].states[k].status == Running || store[name].states[k].status == Starting))
    {
      var rs := if name in runners then runners[name] else [];
      if |rs| > 0 {
        return true;
      }
      if name in store {
        var l := store[name].states;
        for i := 0 to |l|
          invariant forall k :: 0 <= k < i ==> l[k].status != Running && l[k].status != Starting
        {
          if l[i].status == Running || l[i].status == Starting {
            return true;
          }
        }
      }
      return false;
    }

    // Swaps prev for nw in the runner slice, or appends nw.
    method ReplaceRunnerLocked(name: string, prev: Runner, nw: Runner)
      modifies this
      ensures OnlyChanges(name, old(RegOf(name)).(runners := Replace(old(RegOf(name)).runners, prev, nw)))
      ensures var rs, qs := old(RegOf(name)).runners, RegOf(name).runners;
              if prev in rs then exists i :: 0 <= i < |rs| && rs[i] == prev && prev !in rs[..i] && qs == rs[i := nw]
              else qs == rs + [nw]
    {
      hide Replace;
      var rs := if name in runners then runners[name] else [];
      for i := 0 to |rs|
        invariant prev !in rs[..i]
      {
        if rs[i] == prev {
          ReplaceFirst(rs, prev, nw, i);
          runners := runners[name := rs[i := nw]];
          return;
        }
      }
      ReplaceUntracked(rs, prev, nw);
      runners := runners[name := rs + [nw]];
    }

    // Append one instance for each slot in [from, upto).
    method AddInstancesLocked(name: string, spec: Spec, from: nat, upto: nat, addrs: seq<string>)
      requires from <= upto
      modifies this
      ensures OnlyChanges(name, Grow(old(RegOf(name)), spec, from, upto, addrs))
    {
      hide Grow, Create, NextRunner, RegOf;
      ghost var g := RegOf(name);
      for slot := from to upto
        invariant Grow(g, spec, from, upto, addrs) == Grow(RegOf(name), spec, slot, upto, addrs)
        invariant stopped == old(stopped)
        invariant forall other :: other != name ==> RegOf(other) == old(RegOf(other))
      {
        GrowUnfolds(RegOf(name), spec, slot, upto, addrs);
        CreateEffect(RegOf(name), spec, slot, Found(addrs, slot));
        var r := CreateInstance(name, spec, slot, Found(addrs, slot));
        Track(name, r);
      }
      GrowUnfolds(RegOf(name), spec, upto, upto, addrs);
    }

    method Track(name: string, r: Runner)
      modifies this
      ensures OnlyChanges(name, old(RegOf(name)).(runners := old(RegOf(name)).runners + [r]))
    {
      runners := runners[name := (if name in runners then runners[name] else []) + [r]];
    }

    // Stop the given instances and drop their entries, in order.
    method RemoveInstancesLocked(name: string, drop: seq<Runner>)
      modifies this
      ensures ChangesAndStops(name, old(RegOf(name)).(proc := RemoveStates(old(RegOf(name)).proc, drop)), drop)
    {
      hide RemoveState, WriteStatus;
      ghost var g := RegOf(name);
      NoneSent(name, stopped);
      for i := 0 to |drop|
        invariant RegOf(name).(proc := None) == g.(proc := None)
        invariant RemoveStates(g.proc, drop) == RemoveStates(RegOf(name).proc, drop[i..])
        invariant stopped == old(stopped) + Sent(name, drop[..i])
        invariant forall other :: other != name ==> RegOf(other) == old(RegOf(other))
      {
        assert drop[i..][1..] == drop[i + 1..];
        SentSnoc(name, old(stopped), drop, i);
        DropOne(name, drop[i]);
      }
      assert drop[..|drop|] == drop;
    }

    // Stop an instance and drop its entry: of the stop nothing is left in the store.
    method DropOne(name: string, r: Runner)
      modifies this
      ensures ChangesAndStops(name, old(RegOf(name)).(proc := RemoveState(old(RegOf(name)).proc, r.index)), [r])
    {
      hide RemoveState, WriteStatus;
      WriteThenRemove(RegOf(name).proc, r.index, Stopped);
      Stop(name, r);
      RemoveInstanceState(name, r.index);
    }

    method ResizeLocked(name: string, spec: Spec, target: nat, addrs: seq<string>)
      requires |SortBySlot(RegOf(name).runners)| == |RegOf(name).runners|
      modifies this
      ensures var g := old(RegOf(name)); Becomes(name, Resize(g, spec, target, SortBySlot(g.runners), addrs))
      ensures var rs := old(RegOf(name)).runners;
              stopped == old(stopped) + Sent(name, if target > |rs| then [] else SortBySlot(rs)[target..])
    {
      hide Grow, RemoveStates, SortBySlot;
      var current := if name in runners then runners[name] else [];
      if target > |current| {
        NoneSent(name, stopped);
        AddInstancesLocked(name, spec, |current|, target, addrs);
      } else {
        var sorted := SortBySlot(current);
        RemoveInstancesLocked(name, sorted[target..]);
        runners := runners[name := sorted[..target]];
      }
    }

    method SetInstancesLocked(name: string, n: int)
      modifies this
      ensures OnlyChanges(name, old(RegOf(name)).(proc := SetInstances(old(RegOf(name)).proc, n)))
    {
      if name in store {
        store := store[name := store[name].(spec := store[name].spec.(instances := n))];
      }
    }

    // ---- commands ----

    method CmdStart(name: string, request: Spec, runnable: bool, addrs: seq<string>, up: bool) returns (ok: bool)
      modifies this
      ensures OnlyChanges(name, StartReg(old(RegOf(name)), request, runnable, addrs, up))
      ensures var g := old(RegOf(name));
              && (ok <==> runnable && (g.proc.Some? ==> g.runners == [] && forall st :: st in g.proc.value.states ==>
                                                          st.status != Running && st.status != Starting))
              && (ok ==> LaunchedFrom(g, RegOf(name), if g.proc.Some? then g.proc.value.spec else request, addrs, up))
              && (!ok ==> RegOf(name) == g)
    {
      hide Launch, LaunchedFrom;
      if name in store {
        var any := AnyRunningLocked(name);
        if any || !runnable {
          return false;
        }
        var spec := store[name].spec;
        store := store[name := Process(spec, [])];
        StartInstancesLocked(name, spec, addrs, up);
        LaunchForgets(old(RegOf(name)), old(RegOf(name)).(proc := Some(Process(spec, []))), spec, addrs, up);
        LaunchExactly(old(RegOf(name)), spec, addrs, up);
        return true;
      }
      if !runnable {
        return false;
      }
      store := store[name := Process(request, [])];
      StartInstancesLocked(name, request, addrs, up);
      LaunchForgets(old(RegOf(name)), old(RegOf(name)).(proc := Some(Process(request, []))), request, addrs, up);
      LaunchExactly(old(RegOf(name)), request, addrs, up);
      return true;
    }

    // Stop on each of the instances: each marks its own entry.
    method StopAll(name: string, toStop: seq<Runner>)
      modifies this
      ensures ChangesAndStops(name, old(RegOf(name)).(proc := StopStates(old(RegOf(name)).proc, toStop)), toStop)
    {
      hide WriteStatus;
      ghost var g := RegOf(name);
      NoneSent(name, stopped);
      for i := 0 to |toStop|
        invariant RegOf(name).(proc := None) == g.(proc := None)
        invariant StopStates(g.proc, toStop) == StopStates(RegOf(name).proc, toStop[i..])
        invariant stopped == old(stopped) + Sent(name, toStop[..i])
        invariant forall other :: other != name ==> RegOf(other) == old(RegOf(other))
      {
        assert toStop[i..][1..] == toStop[i + 1..];
        SentSnoc(name, old(stopped), toStop, i);
        Stop(name, toStop[i]);
      }
      assert toStop[..|toStop|] == toStop;
    }

    // stop closes the front proxy and stops the instances, which stay tracked.
    method CmdStop(name: string) returns (ok: bool)
      modifies this
      ensures var g := old(RegOf(name));
              && ok == (g.runners != [] || g.proc.Some?)
              && ChangesAndStops(name, g.(front := None, proc := StopStates(g.proc, g.runners)), g.runners)
    {
      hide StopStates;
      var toStop := if name in runners then runners[name] else [];
      var inStore := name in store;
      proxies := proxies - {name};
      if |toStop| == 0 && !inStore {
        StopNothing(None);
        NoneSent(name, stopped);
        return false;
      }
      StopAll(name, toStop);
      return true;
    }

    // restart stops the instances and then launches them anew.
    method CmdRestart(name: string, addrs: seq<string>, up: bool) returns (ok: bool)
      modifies this
      ensures var g := old(RegOf(name));
              && Becomes(name, RestartReg(g, addrs, up))
              && stopped == old(stopped) + Sent(name, if ok then g.runners else [])
              && (ok <==> g.proc.Some?)
              && (ok ==> LaunchedFrom(g, RegOf(name), g.proc.value.spec, addrs, up))
              && (!ok ==> RegOf(name) == g)
    {
      hide StopStates, Launch, LaunchedFrom;
      var toStop := if name in runners then runners[name] else [];
      if name !in store {
        NoneSent(name, stopped);
        return false;
      }
      StopKeepsSpec(RegOf(name).proc, toStop);
      StopAll(name, toStop);
      var spec := store[name].spec;
      store := store[name := Process(spec, [])];
      ghost var g := RegOf(name);
      StartInstancesLocked(name, spec, addrs, up);
      LaunchForgets(old(RegOf(name)), g, spec, addrs, up);
      LaunchExactly(old(RegOf(name)), spec, addrs, up);
      return true;
    }

    // The first section of delete.
    method CmdDeleteLocked(name: string) returns (found: bool, toStop: seq<Runner>)
      modifies this
      ensures OnlyChanges(name, DeleteReg(old(RegOf(name))))
      ensures var g := old(RegOf(name)); RegOf(name) == Reg(g.proc, [], 0, g.born, None, g.reloading)
      ensures found == old(RegOf(name)).proc.Some? && toStop == old(RegOf(name)).runners
    {
      toStop := if name in runners then runners[name] else [];
      runners := runners - {name};
      nextIdx := nextIdx - {name};
      proxies := proxies - {name};
      found := name in store;
    }

    method DeleteFromStore(name: string)
      modifies this
      ensures OnlyChanges(name, old(RegOf(name)).(proc := None))
    {
      store := store - {name};
    }

    // delete forgets runners, indices and proxy at once, and the store entry
    // when the instances have stopped.
    method CmdDelete(name: string) returns (ok: bool)
      modifies this
      ensures var g := old(RegOf(name));
              && Becomes(name, Reg(None, [], 0, g.born, None, g.reloading))
              && stopped == old(stopped) + Sent(name, if ok then g.runners else [])
              && (ok <==> g.proc.Some?)
    {
      hide StopStates, RegOf;
      var toStop;
      ok, toStop := CmdDeleteLocked(name);
      if ok {
        StopAll(name, toStop);
        DeleteFromStore(name);
      } else {
        NoneSent(name, stopped);
      }
    }

    // reload: what it answers, and the snapshot handed to the background task.
    // A service without a port is restarted instead.
    method CmdReload(name: string, addrs: seq<string>, up: bool) returns (begun: bool, current: seq<Runner>)
      modifies this
      ensures var g := old(RegOf(name));
              && Becomes(name, if g.proc.Some? && g.proc.value.spec.port == 0 then RestartReg(g, addrs, up) else ReloadReg(g, addrs, up))
              && stopped == old(stopped) + Sent(name, if g.proc.Some? && g.proc.value.spec.port == 0 then g.runners else [])
      ensures begun == ReloadBegins(old(RegOf(name)))
      ensures var g := old(RegOf(name));
              && (begun <==> g.proc.Some? && g.proc.value.spec.port != 0 && !g.reloading && g.runners != [])
              && (begun ==> current == g.runners && RegOf(name) == g.(reloading := true))
              && (!begun ==> if g.proc.None? || (g.proc.value.spec.port != 0 && g.reloading) then RegOf(name) == g
                             else LaunchedFrom(g, RegOf(name), g.proc.value.spec, addrs, up))
    {
      hide Launch, LaunchedFrom;
      begun, current := false, [];
      NoneSent(name, stopped);
      if name !in store {
        return;
      }
      if store[name].spec.port == 0 {
        var _ := CmdRestart(name, addrs, up);
        return;
      }
      if name in reloading && reloading[name] {
        return;
      }
      current := if name in runners then runners[name] else [];
      if |current| == 0 {
        var spec := store[name].spec;
        store := store[name := Process(spec, [])];
        StartInstancesLocked(name, spec, addrs, up);
        LaunchForgets(old(RegOf(name)), old(RegOf(name)).(proc := Some(Process(spec, []))), spec, addrs, up);
        LaunchExactly(old(RegOf(name)), spec, addrs, up);
        return;
      }
      reloading := reloading[name := true];
      begun := true;
    }

    // scale accepts a target of at least one, other than the present number, of a
    // registered service with tracked instances. The instances it drops are
    // stopped.
    method CmdScale(name: string, target: int, addrs: seq<string>, up: bool) returns (changed: bool)
      modifies this
      ensures var g := old(RegOf(name));
              |SortBySlot(g.runners)| == |g.runners| && Becomes(name, ScaleReg(g, target, SortBySlot(g.runners), addrs, up))
      ensures var g := old(RegOf(name));
              && (changed <==> target >= 1 && g.proc.Some? && |g.runners| > 0 && target != |g.runners|)
              && (changed ==> |RegOf(name).runners| == target && RegOf(name).proc.Some? &&
                              RegOf(name).proc.value.spec == g.proc.value.spec.(instances := target))
              && (!changed ==> RegOf(name) == g && stopped == old(stopped))
              && (changed ==> stopped == old(stopped) + Sent(name, if target > |g.runners| then [] else SortBySlot(g.runners)[target..]))
              && (SlotsOk(g.runners) && (g.proc.Some? ==> EntriesBelow(g.proc.value.states, g.nextIdx)) ==>
                    ScaledTo(g, RegOf(name), target, addrs, up))
    {
      hide Resize, Sync, SortBySlot, SetInstances, SlotsOk, EntriesBelow, ScaledTo, IsSortOf;
      ghost var g := RegOf(name);
      SortSorts(g.runners);
      if SlotsOk(g.runners) && (g.proc.Some? ==> EntriesBelow(g.proc.value.states, g.nextIdx)) {
        ScaleRegExactly(g, target, SortBySlot(g.runners), addrs, up);
      }
      changed := false;
      if target < 1 || name !in store {
        return;
      }
      var spec := store[name].spec;
      var cur := if name in runners then |runners[name]| else 0;
      if cur == 0 || target == cur {
        return;
      }
      ResizeLocked(name, spec, target, addrs);
      SyncProxyLocked(name, spec, up);
      SetInstancesLocked(name, target);
      ScaleCounts(g, target, SortBySlot(g.runners), addrs, up);
      changed := true;
    }

    // ---- the background reload ----

    // Stop a replacement that never became healthy and forget it.
    method AbandonReplacement(name: string, nr: Runner)
      modifies this
      ensures ChangesAndStops(name, old(RegOf(name)).(proc := RemoveState(old(RegOf(name)).proc, nr.index)), [nr])
    {
      DropOne(name, nr);
    }

    method PromoteLocked(name: string, spec: Spec, prev: Runner, nw: Runner, up: bool)
      modifies this
      ensures OnlyChanges(name, PromoteReg(old(RegOf(name)), spec, prev, nw, up))
      ensures Synced(old(RegOf(name)).front, RegOf(name).front, spec, RegOf(name).runners, up)
    {
      hide Replace, Upstreams, Lookup, Upsert;
      ReplaceRunnerLocked(name, prev, nw);
      SyncProxyLocked(name, spec, up);
      var found := if name in store then Lookup(store[name].states, prev.index) else None;
      if found.Some? {
        SetInstanceState(name, found.value.(status := Draining));
      }
    }

    // One drain: Stop, then remove the entry.
    method DrainOne(name: string, r: Runner)
      modifies this
      ensures var g := old(RegOf(name));
              ChangesAndStops(name, g.(proc := RemoveState(WriteStatus(g.proc, r.index, Stopped), r.index)), [r])
    {
      hide WriteStatus, RemoveState;
      Stop(name, r);
      RemoveInstanceState(name, r.index);
    }

    method ClearReloading(name: string)
      modifies this
      ensures OnlyChanges(name, old(RegOf(name)).(reloading := false))
    {
      reloading := reloading - {name};
    }

    // The drains of the first `upto` instances of the plan, one after the other.
    method DrainAll(name: string, ghost spec: Spec, plan: seq<Runner>, upto: nat, ghost birth: nat, ghost phase: Phase,
                    ghost from: Service, ghost n: Service, ghost rr: seq<Service>, ghost fs: seq<Event>,
                    ghost g: Reg, ghost made: nat, ghost addrs: seq<string>, ghost up: bool)
      returns (ghost s: Service, ghost ss: seq<Service>, ghost es: seq<Event>)
      requires upto <= |plan| && n.reg == RegOf(name) && RunTo(rr, fs, from, n)
      requires Rolled(n, spec, plan, birth, upto, phase, Elements(plan[..upto]))
      requires Ground(g) && upto <= made && forall j :: 0 <= j < upto ==> plan[j] in g.runners && plan[j].slot == j
      requires RolledTo(g, RegOf(name), spec, upto, made, addrs, up)
      modifies this
      ensures s.reg == RegOf(name) && Rolled(s, spec, plan, birth, upto, phase, {}) && RunTo(ss, es, from, s)
      ensures RegOf(name).(proc := None) == old(RegOf(name)).(proc := None)
      ensures RolledTo(g, RegOf(name), spec, upto, made, addrs, up) && stopped == old(stopped) + Sent(name, plan[..upto])
      ensures forall other :: other != name ==> RegOf(other) == old(RegOf(other))
    {
      hide Good, Next, Enabled, RegOf, RemoveState, WriteStatus, RunTo, RolledTo, Ground;
      s, ss, es := n, rr, fs;
      NoneSent(name, stopped);
      PlanDistinct(s, plan);
      assert plan[0..upto] == plan[..upto];
      for j := 0 to upto
        invariant s.reg == RegOf(name) && Rolled(s, spec, plan, birth, upto, phase, Elements(plan[j..upto])) && RunTo(ss, es, from, s)
        invariant RegOf(name).(proc := None) == old(RegOf(name)).(proc := None)
        invariant RolledTo(g, RegOf(name), spec, upto, made, addrs, up) && stopped == old(stopped) + Sent(name, plan[..j])
        invariant forall other :: other != name ==> RegOf(other) == old(RegOf(other))
      {
        var r := plan[j];
        DrainRolls(g, RegOf(name), spec, upto, made, addrs, up, r);
        SentSnoc(name, old(stopped), plan, j);
        assert plan[j..upto] == [r] + plan[j + 1..upto];
        assert Elements(plan[j..upto]) - {r} == Elements(plan[j + 1..upto]);
        SlotDrain(s, spec, plan, birth, upto, phase, Elements(plan[j..upto]), r);
        DrainOne(name, r);
        ghost var m := Next(s, DrainStop(0, r));
        Extended(ss, es, from, s, DrainStop(0, r));
        Extended(ss + [m], es + [DrainStop(0, r)], from, m, DrainRemove(0, r));
        s := Next(m, DrainRemove(0, r));
        ss, es := ss + [m] + [s], es + [DrainStop(0, r)] + [DrainRemove(0, r)];
      }
      assert Elements(plan[upto..upto]) == {};
    }

    // The rolling loop of a reload on the snapshot `current`, when no other
    // command intervenes; probes[i] says whether the i-th replacement becomes
    // healthy. It takes over the slots up to the first one whose probe fails.
    // The ghost results are the run of the protocol that it performs.
    method RunReload(name: string, spec: Spec, current: seq<Runner>, probes: seq<bool>, addrs: seq<string>, up: bool,
                     ghost s0: Service)
      returns (taken: nat, ghost s: Service, ghost ss: seq<Service>, ghost es: seq<Event>)
      requires s0.reg == RegOf(name) && current == RegOf(name).runners && |probes| == |current|
      requires Rolled(s0, spec, SortBySlot(current), RegOf(name).born, 0, AtSlot, {})
      requires Distinct(addrs)
      requires forall i, r :: 0 <= i < |addrs| && addrs[i] != "" && r in current ==> r.addr != addrs[i]
      modifies this
      ensures taken <= |current| && (forall i :: 0 <= i < taken ==> probes[i]) && (taken < |current| ==> !probes[taken])
      ensures RunTo(ss, es, s0, s) && s.reg == RegOf(name) && s.tasks == [] && Good(s)
      ensures TakenOver(s, SortBySlot(current), taken, old(RegOf(name)).born) && |RegOf(name).runners| == |current|
      ensures RegOf(name).nextIdx == old(RegOf(name)).nextIdx + if taken < |current| then taken + 1 else taken
      ensures !RegOf(name).reloading
      ensures RegOf(name).proc.Some? && NothingDraining(RegOf(name).proc.value.states)
      ensures Keys(RegOf(name).proc.value.states) == Indices(Elements(RegOf(name).runners))
      ensures RolledTo(old(RegOf(name)), RegOf(name), spec, taken, if taken < |current| then taken + 1 else taken, addrs, up)
      ensures forall r :: r in RegOf(name).runners && r.slot < taken ==>
                && r.addr == (if spec.port > 0 && r.slot < |addrs| then addrs[r.slot] else "")
                && InstanceState(r.index, r.slot, Starting, r.addr) in RegOf(name).proc.value.states
      ensures RegOf(name).front.Some? ==>
                forall r :: r in RegOf(name).runners && r.addr != "" ==> r.addr in RegOf(name).front.value
      ensures stopped == old(stopped) + Sent(name, if taken < |current| then [NewAt(old(RegOf(name)), taken, taken, spec, addrs)] else [])
                                      + Sent(name, SortBySlot(current)[..taken])
      ensures forall other :: other != name ==> RegOf(other) == old(RegOf(other))
    {
      hide Good, Next, Enabled, SortBySlot, Live, TakenOver, NothingDraining, RegOf, Create, PromoteReg, RemoveState, WriteStatus;
      hide Unused, AddrsFrom, Distinct, RunTo, RolledTo, Ground, NewAt, Upstreams, Synced, StartingState, NextRunner;
      ghost var g := RegOf(name);
      ghost var birth := RegOf(name).born;
      TrackedGround(s0);
      NothingRolled(g, spec, addrs, up);
      NoneSent(name, stopped);
      SortSorts(current);
      var sorted := SortBySlot(current);
      StartAddrs(s0, addrs);
      StartsAt(s0);
      s, ss, es := s0, [s0], [];
      taken := 0;
      var aborted := false;
      ghost var drains: set<Runner> := {};
      while taken < |sorted| && !aborted
        invariant taken <= |sorted| && (aborted ==> taken < |sorted| && !probes[taken])
        invariant forall i :: 0 <= i < taken ==> probes[i]
        invariant s.reg == RegOf(name) && Rolled(s, spec, sorted, birth, taken, if aborted then Aborted else AtSlot, drains)
        invariant RunTo(ss, es, s0, s)
        invariant drains == Elements(sorted[..taken])
        invariant s.reg.nextIdx == s0.reg.nextIdx + taken + (if aborted then 1 else 0)
        invariant |s.reg.runners| == |current|
        invariant RolledTo(g, s.reg, spec, taken, if aborted then taken + 1 else taken, addrs, up)
        invariant stopped == old(stopped) + Sent(name, if aborted then [NewAt(g, taken, taken, spec, addrs)] else [])
        invariant !aborted ==> AddrsFrom(s, current, addrs, taken)
        invariant forall other :: other != name ==> RegOf(other) == old(RegOf(other))
        decreases |sorted| - taken, !aborted
      {
        var prev, found := sorted[taken], Found(addrs, taken);
        NextUnused(s, current, addrs, taken);
        SlotSpawn(s, spec, sorted, birth, taken, drains, found);
        var nr := CreateInstance(name, spec, prev.slot, found);
        ghost var m := Next(s, Spawn(0, found));
        Extended(ss, es, s0, s, Spawn(0, found));
        ss, es := ss + [m], es + [Spawn(0, found)];
        CreateEffect(s.reg, spec, prev.slot, found);
        PlanTracked(g, sorted, taken);
        if !probes[taken] {
          SlotAbort(m, spec, sorted, birth, taken, nr, drains);
          RollsBack(g, s.reg, spec, taken, addrs, up);
          NextIsNew(g, s.reg, spec, taken, addrs, up);
          AbandonReplacement(name, nr);
          Extended(ss, es, s0, m, Abort(0));
          s := Next(m, Abort(0));
          ss, es := ss + [s], es + [Abort(0)];
          aborted := true;
        } else {
          RollsOn(g, s.reg, spec, taken, addrs, up, prev);
          SpawnAddrs(s, m, current, addrs, taken, nr);
          SlotPromote(m, spec, sorted, birth, taken, nr, drains, up);
          PromoteLocked(name, spec, prev, nr, up);
          ghost var n := Next(m, Promote(0, up));
          Extended(ss, es, s0, m, Promote(0, up));
          ProbingBelow(m);
          PromoteKeepsAddrs(m, n, spec, prev, nr, up);
          FewerAddrs(m, n, current, addrs, taken + 1);
          PromoteEffect(m.reg, spec, prev, nr, up);
          assert sorted[..taken + 1] == sorted[..taken] + [prev];
          s, drains := n, drains + {prev};
          ss, es := ss + [n], es + [Promote(0, up)];
          taken := taken + 1;
        }
      }
      ghost var phase := if aborted then Aborted else AtSlot;
      ghost var made := if aborted then taken + 1 else taken;
      PlanTracked(g, sorted, taken);
      s, ss, es := DrainAll(name, spec, sorted, taken, birth, phase, s0, s, ss, es, g, made, addrs, up);
      RollFinish(s, spec, sorted, birth, taken, phase);
      FlagRolls(g, RegOf(name), spec, taken, made, addrs, up, false);
      ClearReloading(name);
      RolledMeans(g, RegOf(name), spec, taken, made, addrs, up);
      FrontLists(Next(s, Finish(0)));
      Extended(ss, es, s0, s, Finish(0));
      ss, es := ss + [Next(s, Finish(0))], es + [Finish(0)];
      s := Next(s, Finish(0));
    }

    // The whole of a reload: the command and the background task it starts. On
    // a service in good order they take it to good order again, along a run of
    // the protocol that begins with the accepted command.
    method Reload(name: string, probes: seq<bool>, addrs: seq<string>, up: bool, ghost s0: Service)
      returns (begun: bool, taken: nat, ghost ss: seq<Service>, ghost es: seq<Event>)
      requires s0.reg == RegOf(name) && s0.tasks == [] && Good(s0) && |probes| == |RegOf(name).runners|
      requires Distinct(addrs)
      requires forall i, r :: 0 <= i < |addrs| && addrs[i] != "" && r in RegOf(name).runners ==> r.addr != addrs[i]
      modifies this
      ensures begun == ReloadBegins(old(RegOf(name)))
      ensures var g := old(RegOf(name));
              !begun ==> Becomes(name, if g.proc.Some? && g.proc.value.spec.port == 0 then RestartReg(g, addrs, up) else ReloadReg(g, addrs, up))
      ensures var g := old(RegOf(name));
              !begun ==> if g.proc.None? || (g.proc.value.spec.port != 0 && g.reloading) then RegOf(name) == g
                         else LaunchedFrom(g, RegOf(name), g.proc.value.spec, addrs, up)
      ensures begun ==> |es| > 0 && |ss| == |es| + 1 && RunTo(ss, es, s0, ss[|es|]) && es[0].Reload?
      ensures begun ==> ss[|es|].reg == RegOf(name) && Good(ss[|es|]) && ss[|es|].tasks == []
      ensures begun ==> taken <= |probes| && (forall i :: 0 <= i < taken ==> probes[i]) && (taken < |probes| ==> !probes[taken])
      ensures begun ==> TakenOver(ss[|es|], SortBySlot(old(RegOf(name)).runners), taken, old(RegOf(name)).born)
      ensures var g := old(RegOf(name));
              begun ==> taken <= |probes| && RolledTo(g, RegOf(name), g.proc.value.spec, taken, if taken < |probes| then taken + 1 else taken, addrs, up)
      ensures var g := old(RegOf(name));
              begun ==> RegOf(name).proc.Some? && forall r :: r in RegOf(name).runners && r.slot < taken ==>
                && r.addr == (if g.proc.value.spec.port > 0 && r.slot < |addrs| then addrs[r.slot] else "")
                && InstanceState(r.index, r.slot, Starting, r.addr) in RegOf(name).proc.value.states
      ensures begun && RegOf(name).front.Some? ==>
                forall r :: r in RegOf(name).runners && r.addr != "" ==> r.addr in RegOf(name).front.value
      ensures var g := old(RegOf(name));
              begun ==> stopped == old(stopped)
                                   + Sent(name, if taken < |probes| then [NewAt(g, taken, taken, g.proc.value.spec, addrs)] else [])
                                   + Sent(name, SortBySlot(g.runners)[..taken])
      ensures begun ==> forall other :: other != name ==> RegOf(other) == old(RegOf(other))
    {
      hide Good, Next, Enabled, SortBySlot, TakenOver, NothingDraining, Launch, Distinct, IsSortOf, NewAt, RolledTo, Upstreams, LaunchedFrom;
      ghost var g := RegOf(name);
      taken, ss, es := 0, [], [];
      var current;
      begun, current := CmdReload(name, addrs, up);
      if begun {
        ghost var spec, plan := g.proc.value.spec, SortBySlot(current);
        SortSorts(current);
        Begins(s0, plan, addrs, up);
        ghost var e := Event.Reload(plan, addrs, up);
        ghost var s;
        taken, s, ss, es := RunReload(name, store[name].spec, current, probes, addrs, up, Next(s0, e));
        Preceded(s0, e, ss, es, s);
        NoneSent(name, old(stopped));
        FlagForgotten(g, RegOf(name), spec, taken, if taken < |probes| then taken + 1 else taken, addrs, up);
        ss, es := [s0] + ss, [e] + es;
      }
    }
  }

  // The stops of these instances of one service.
  function Sent(name: string, rs: seq<Runner>): seq<(string, Runner)> {
    seq(|rs|, i requires 0 <= i < |rs| => (name, rs[i]))
  }

  lemma NoneSent(name: string, before: seq<(string, Runner)>)
    ensures before + Sent(name, []) == before
  {
  }

  lemma SentSnoc(name: string, before: seq<(string, Runner)>, rs: seq<Runner>, i: nat)
    requires i < |rs|
    ensures before + Sent(name, rs[..i]) + Sent(name, [rs[i]]) == before + Sent(name, rs[..i + 1])
  {
    assert rs[..i + 1] == rs[..i] + [rs[i]];
    assert Sent(name, rs[..i + 1]) == Sent(name, rs[..i]) + Sent(name, [rs[i]]);
  }

  lemma NextIsNew(g: Reg, h: Reg, spec: Spec, taken: nat, addrs: seq<string>, up: bool)
    requires RolledTo(g, h, spec, taken, taken, addrs, up)
    ensures NextRunner(h, spec, taken, Found(addrs, taken)) == NewAt(g, taken, taken, spec, addrs)
  {
  }

  lemma TrackedGround(s: Service)
    requires Good(s) && s.tasks != []
    ensures Ground(s.reg) && s.reg.proc.Some?
  {
    hide Good, Ground;
    TaskParts(s);
    RollGround(s);
  }

  lemma PlanTracked(g: Reg, sorted: seq<Runner>, taken: nat)
    requires Ground(g) && IsSortOf(sorted, g.runners) && taken <= |sorted|
    ensures forall j :: 0 <= j < |sorted| ==> sorted[j] in g.runners && sorted[j].slot == j
  {
    hide IsSortOf;
    SortedSlots(sorted, g.runners);
    forall j | 0 <= j < |sorted| ensures sorted[j] in g.runners { assert sorted[j] in Elements(sorted); }
  }

  lemma FrontLists(s: Service)
    requires Good(s)
    ensures s.reg.front.Some? ==> forall r :: r in s.reg.runners && r.addr != "" ==> r.addr in s.reg.front.value
  {
    hide Good, Upstreams;
    if s.reg.front.Some? {
      if s.reg.runners == [] { NoFrontWhenEmpty(s); }
      ActiveParts(s);
      forall r | r in s.reg.runners && r.addr != "" ensures r.addr in s.reg.front.value {
        PublishedAddrs(s.reg.runners, r.addr);
      }
    }
  }

  lemma FlagForgotten(g: Reg, h: Reg, spec: Spec, taken: nat, made: nat, addrs: seq<string>, up: bool)
    requires RolledTo(g.(reloading := true), h, spec, taken, made, addrs, up)
    ensures RolledTo(g, h, spec, taken, made, addrs, up)
    ensures NewAt(g.(reloading := true), taken, taken, spec, addrs) == NewAt(g, taken, taken, spec, addrs)
  {
  }

  lemma ScaleCounts(g: Reg, target: int, sorted: seq<Runner>, addrs: seq<string>, up: bool)
    requires ScaleAccepted(g, target) && |sorted| == |g.runners|
    ensures var h := ScaleReg(g, target, sorted, addrs, up);
            |h.runners| == target && h.proc.Some? && h.proc.value.spec == g.proc.value.spec.(instances := target)
  {
    hide Grow, RemoveStates, Upstreams;
    if target > |g.runners| {
      GrowAdds(g, g.proc.value.spec, |g.runners|, target, addrs);
      GrowKeepsFlags(g, g.proc.value.spec, |g.runners|, target, addrs);
    } else {
      SpecAfterRemovals(g.proc, sorted[target..]);
    }
  }

  lemma StartsAt(s: Service)
    ensures RunTo([s], [], s, s)
  {
  }

  lemma Preceded(s: Service, e: Event, ss: seq<Service>, es: seq<Event>, n: Service)
    requires Enabled(s, e) && RunTo(ss, es, Next(s, e), n)
    ensures RunTo([s] + ss, [e] + es, s, n)
  {
    hide Next, Enabled;
  }

  // ---- stopping ----

  lemma StopNothing(proc: Option<Process>)
    ensures StopStates(proc, []) == proc
  {
  }

  // The stops of a command are steps of the protocol, with every other step
  // free to fall between them.
  lemma {:induction false} StopIsRun(s: Service, rs: seq<Runner>) returns (ss: seq<Service>, es: seq<Event>)
    requires forall r :: r in rs ==> r in s.reg.runners
    ensures RunTo(ss, es, s, s.(reg := s.reg.(proc := StopStates(s.reg.proc, rs))))
    ensures |es| == |rs| && forall i :: 0 <= i < |es| ==> es[i] == Terminate(rs[i])
    decreases rs
  {
    hide WriteStatus;
    if rs == [] {
      StartsAt(s);
      ss, es := [s], [];
    } else {
      var n := Next(s, Terminate(rs[0]));
      ss, es := StopIsRun(n, rs[1..]);
      Preceded(s, Terminate(rs[0]), ss, es, n.(reg := n.reg.(proc := StopStates(n.reg.proc, rs[1..]))));
      ss, es := [s] + ss, [Terminate(rs[0])] + es;
    }
  }

  lemma {:induction false} StopKeepsSpec(proc: Option<Process>, rs: seq<Runner>)
    ensures StopStates(proc, rs).Some? == proc.Some?
    ensures proc.Some? ==> StopStates(proc, rs).value.spec == proc.value.spec
    decreases rs
  {
    hide Lookup, Upsert;
    if rs != [] { StopKeepsSpec(WriteStatus(proc, rs[0].index, Stopped), rs[1..]); }
  }

  // A launch depends on nothing that stopping has written.
  lemma LaunchForgets(g: Reg, h: Reg, spec: Spec, addrs: seq<string>, up: bool)
    requires g.(proc := None) == h.(proc := None)
    ensures Launch(g, spec, addrs, up) == Launch(h, spec, addrs, up)
  {
    hide Grow, Sync;
    var p := Some(Process(spec, []));
    assert g.(proc := p, runners := []) == h.(proc := p, runners := []);
  }

  // After stop, the entries of the stopped instances show as stopped and the
  // others are as before.
  lemma {:induction false} StoppedExactly(proc: Option<Process>, rs: seq<Runner>, index: nat)
    requires proc.Some?
    ensures StopStates(proc, rs).Some?
    ensures var before, after := Lookup(proc.value.states, index), Lookup(StopStates(proc, rs).value.states, index);
            if exists r :: r in rs && r.index == index
            then after.Some? && after.value.status == Stopped &&
                 (before.Some? ==> after.value == before.value.(status := Stopped))
            else after == before
    decreases rs
  {
    hide Lookup, Upsert;
    if rs != [] {
      var r, l := rs[0], proc.value.states;
      var p := WriteStatus(proc, r.index, Stopped);
      StoppedExactly(p, rs[1..], index);
      LookupUpsert(l, if Lookup(l, r.index).Some? then Lookup(l, r.index).value.(status := Stopped)
                      else InstanceState(r.index, 0, Stopped, ""), index);
      FoundIndex(l, r.index);
      assert forall q :: q in rs <==> q == r || q in rs[1..];
    }
  }

  lemma FoundIndex(l: seq<InstanceState>, index: nat)
    ensures Lookup(l, index).Some? ==> Lookup(l, index).value.index == index
  {
  }

  lemma WriteThenRemove(proc: Option<Process>, index: nat, status: Status)
    ensures RemoveState(WriteStatus(proc, index, status), index) == RemoveState(proc, index)
  {
    if proc.Some? {
      var found := Lookup(proc.value.states, index);
      var st := if found.Some? then found.value.(status := status) else InstanceState(index, 0, status, "");
      WithoutUpsert(proc.value.states, st);
    }
  }

  lemma StartAddrs(s: Service, addrs: seq<string>)
    requires |s.tasks| == 1 && InFlight(s.tasks[0]) == {}
    ensures AddrsFrom(s, s.reg.runners, addrs, 0)
  {
  }

  lemma CreateIgnoresRunners(g: Reg, rs: seq<Runner>, spec: Spec, slot: nat, found: string)
    ensures NextRunner(g.(runners := rs), spec, slot, found) == NextRunner(g, spec, slot, found)
    ensures Create(g.(runners := rs), spec, slot, found) == Create(g, spec, slot, found).(runners := rs)
  {
  }

  lemma CreateEffect(g: Reg, spec: Spec, slot: nat, found: string)
    ensures var h, nr := Create(g, spec, slot, found), NextRunner(g, spec, slot, found);
            h.nextIdx == g.nextIdx + 1 && h.runners == g.runners && nr.index == g.nextIdx && (nr.addr == "" || nr.addr == found)
  {
  }

  lemma PromoteEffect(g: Reg, spec: Spec, prev: Runner, nw: Runner, up: bool)
    requires prev in g.runners
    ensures var h := PromoteReg(g, spec, prev, nw, up); h.nextIdx == g.nextIdx && |h.runners| == |g.runners|
  {
    hide MarkDraining;
    var j := ReplaceTracked(g.runners, prev, nw);
  }

  lemma PlanDistinct(s: Service, plan: seq<Runner>)
    requires Good(s) && |s.tasks| == 1 && s.tasks[0].plan == plan
    ensures forall i, j :: 0 <= i < j < |plan| ==> plan[i] != plan[j]
  {
    hide Good;
    TaskParts(s);
  }
}
