// What holds in every run of the protocol: no discipline on how commands
// interleave, and none on the addresses that instances are given.
module AnyRun {
  import opened Basics
  import opened InstanceList
  import opened Registry
  import opened Protocol
  import opened Invariants

  // ---- the front proxy ----

  // The name is registered in one mode only: always proxied, or never.
  ghost predicate OneMode(s: Service, es: seq<Event>, fronted: bool) {
    (s.reg.proc.Some? ==> s.reg.proc.value.spec.Fronted() == fronted) &&
    forall i :: 0 <= i < |es| && es[i].Start? ==> es[i].request.Fronted() == fronted
  }

  ghost predicate FrontMatches(g: Reg, fronted: bool) {
    && (g.proc.Some? ==> g.proc.value.spec.Fronted() == fronted)
    && (g.front.Some? ==> fronted && g.front.value == Upstreams(g.runners))
  }

  ghost predicate TasksMatch(ts: seq<Task>, fronted: bool) {
    forall k :: 0 <= k < |ts| ==> ts[k].spec.Fronted() == fronted
  }

  lemma LaunchMatches(g: Reg, spec: Spec, addrs: seq<string>, up: bool)
    requires g.front.Some? ==> spec.Fronted()
    ensures FrontMatches(Launch(g, spec, addrs, up), spec.Fronted())
  {
    hide Grow, Upstreams;
    GrowKeepsFlags(g.(proc := Some(Process(spec, [])), runners := []), spec, 0, spec.Count(), addrs);
  }

  lemma ScaleMatches(g: Reg, target: int, sorted: seq<Runner>, addrs: seq<string>, up: bool, fronted: bool)
    requires FrontMatches(g, fronted) && |sorted| == |g.runners|
    ensures FrontMatches(ScaleReg(g, target, sorted, addrs, up), fronted)
  {
    hide Grow, Upstreams, RemoveStates;
    if ScaleAccepted(g, target) {
      if target > |g.runners| {
        GrowKeepsFlags(g, g.proc.value.spec, |g.runners|, target, addrs);
      } else {
        SpecAfterRemovals(g.proc, sorted[target..]);
      }
    }
  }

  lemma {:induction false} SpecAfterRemovals(proc: Option<Process>, rs: seq<Runner>)
    requires proc.Some?
    ensures RemoveStates(proc, rs).Some? && RemoveStates(proc, rs).value.spec == proc.value.spec
    decreases rs
  {
    if rs != [] { SpecAfterRemovals(RemoveState(proc, rs[0].index), rs[1..]); }
  }

  lemma PromoteMatches(g: Reg, spec: Spec, prev: Runner, nw: Runner, up: bool)
    requires FrontMatches(g, spec.Fronted())
    ensures FrontMatches(PromoteReg(g, spec, prev, nw, up), spec.Fronted())
  {
    hide Upstreams, Replace;
  }

  lemma StepMatches(s: Service, e: Event, fronted: bool)
    requires FrontMatches(s.reg, fronted) && TasksMatch(s.tasks, fronted) && Enabled(s, e)
    requires e.Start? ==> e.request.Fronted() == fronted
    ensures FrontMatches(Next(s, e).reg, fronted) && TasksMatch(Next(s, e).tasks, fronted)
  {
    hide Launch, ScaleReg, PromoteReg, Upstreams, Create, Lookup, Upsert, Without, IsSortOf, AnyRunning, Live;
    match e {
      case Start(request, runnable, addrs, up) =>
        LaunchMatches(s.reg, request, addrs, up);
        if s.reg.proc.Some? { LaunchMatches(s.reg, s.reg.proc.value.spec, addrs, up); }
      case Restart(addrs, up) =>
        if s.reg.proc.Some? { LaunchMatches(s.reg, s.reg.proc.value.spec, addrs, up); }
      case Reload(plan, addrs, up) =>
        if s.reg.proc.Some? { LaunchMatches(s.reg, s.reg.proc.value.spec, addrs, up); }
      case Scale(target, sorted, addrs, up) =>
        ScaleMatches(s.reg, target, sorted, addrs, up, fronted);
      case Promote(k, up) =>
        PromoteMatches(s.reg, s.tasks[k].spec, s.tasks[k].plan[s.tasks[k].at], s.tasks[k].phase.nr, up);
      case Spawn(k, found) =>
        CreateKeepsFront(s.reg, s.tasks[k].spec, s.tasks[k].plan[s.tasks[k].at].slot, found);
      case _ =>
    }
  }

  lemma CreateKeepsFront(g: Reg, spec: Spec, slot: nat, found: string)
    ensures var h := Create(g, spec, slot, found);
            h.front == g.front && h.runners == g.runners && h.proc.Some? == g.proc.Some? &&
            (g.proc.Some? ==> h.proc.value.spec == g.proc.value.spec)
  {
  }

  // Under any interleaving of all commands, a live front proxy publishes the
  // addresses of the tracked instances in order, as long as the name is not
  // registered in both modes. (Overlap.StaleFrontRun is a run that does.)
  lemma FrontAlwaysAgrees(ss: seq<Service>, es: seq<Event>, i: nat, fronted: bool)
    requires IsRun(ss, es) && Init(ss[0]) && OneMode(ss[0], es, fronted) && i < |ss|
    ensures ss[i].reg.front.Some? ==> fronted && ss[i].reg.front.value == Upstreams(ss[i].reg.runners)
  {
    RunMatches(ss, es, i, fronted);
  }

  lemma {:induction false} RunMatches(ss: seq<Service>, es: seq<Event>, i: nat, fronted: bool)
    requires IsRun(ss, es) && Init(ss[0]) && OneMode(ss[0], es, fronted) && i < |ss|
    ensures FrontMatches(ss[i].reg, fronted) && TasksMatch(ss[i].tasks, fronted)
  {
    hide Next, Enabled;
    if i > 0 {
      RunMatches(ss, es, i - 1, fronted);
      StepMatches(ss[i - 1], es[i - 1], fronted);
    }
  }

  // ---- indices ----

  // The runners that a service, or a reload of it, still refers to.
  function Known(s: Service): set<Runner> {
    Live(s) + (if s.tasks == [] then {} else Elements(s.tasks[0].plan))
  }

  ghost predicate Numbered(rs: set<Runner>, nextIdx: nat) {
    (forall r {:trigger r in rs} :: r in rs ==> r.index < nextIdx) &&
    (forall a, b {:trigger a in rs, b in rs} :: a in rs && b in rs && a.index == b.index ==> a == b)
  }

  // The runners among `rs` that are new have indices of their own, from `nextIdx` on.
  ghost predicate NewlyNumbered(rs: set<Runner>, before: set<Runner>, nextIdx: nat, upto: nat) {
    && nextIdx <= upto
    && (forall r {:trigger r in rs} :: r in rs && r !in before ==> nextIdx <= r.index < upto)
    && (forall a, b {:trigger a in rs, b in rs} :: a in rs && b in rs && a !in before && b !in before && a.index == b.index ==> a == b)
  }

  lemma NumberedOn(rs: set<Runner>, before: set<Runner>, nextIdx: nat, upto: nat)
    requires Numbered(before, nextIdx) && NewlyNumbered(rs, before, nextIdx, upto)
    ensures Numbered(rs, upto)
  {
  }

  // What growing adds, element by element.
  lemma {:induction false} GrowAdds(g: Reg, spec: Spec, from: nat, upto: nat, addrs: seq<string>)
    requires from <= upto
    ensures var h, n := Grow(g, spec, from, upto, addrs), |g.runners|;
            && |h.runners| == n + upto - from && g.runners <= h.runners
            && h.nextIdx == g.nextIdx + upto - from && h.born == g.born + upto - from
            && (forall k :: n <= k < |h.runners| ==> h.runners[k].index == g.nextIdx + k - n)
            && (forall k :: n <= k < |h.runners| ==> h.runners[k].slot == from + k - n)
            && (forall k :: n <= k < |h.runners| ==> h.runners[k].id == g.born + k - n)
    decreases upto - from
  {
    hide SetState;
    if from < upto {
      var m := AddInstance(g, spec, from, Found(addrs, from));
      GrowAdds(m, spec, from + 1, upto, addrs);
      var h, n := Grow(m, spec, from + 1, upto, addrs), |g.runners|;
      assert m.runners[n] == h.runners[n];
    }
  }

  lemma GrowNumbers(g: Reg, spec: Spec, from: nat, upto: nat, addrs: seq<string>)
    requires from <= upto
    ensures var h := Grow(g, spec, from, upto, addrs); NewlyNumbered(Elements(h.runners), Elements(g.runners), g.nextIdx, h.nextIdx)
  {
    hide Grow;
    GrowAdds(g, spec, from, upto, addrs);
    var h, n := Grow(g, spec, from, upto, addrs), |g.runners|;
    assert forall k :: 0 <= k < n ==> h.runners[k] == g.runners[k];
    forall r | r in h.runners && r !in g.runners ensures exists k :: n <= k < |h.runners| && h.runners[k] == r {
      var k :| 0 <= k < |h.runners| && h.runners[k] == r;
    }
  }

  lemma LaunchNumbers(g: Reg, spec: Spec, addrs: seq<string>, up: bool)
    ensures var h := Launch(g, spec, addrs, up); NewlyNumbered(Elements(h.runners), {}, g.nextIdx, h.nextIdx)
  {
    hide Grow, Upstreams;
    var c := g.(proc := Some(Process(spec, [])), runners := []);
    GrowNumbers(c, spec, 0, spec.Count(), addrs);
    assert Elements(c.runners) == {};
  }

  lemma ScaleNumbers(g: Reg, target: int, sorted: seq<Runner>, addrs: seq<string>, up: bool)
    requires IsSortOf(sorted, g.runners) && |sorted| == |g.runners|
    ensures var h := ScaleReg(g, target, sorted, addrs, up);
            NewlyNumbered(Elements(h.runners), Elements(g.runners), g.nextIdx, h.nextIdx)
  {
    hide Grow, Upstreams, RemoveStates;
    if ScaleAccepted(g, target) {
      if target > |g.runners| {
        GrowNumbers(g, g.proc.value.spec, |g.runners|, target, addrs);
      } else {
        SameElements(sorted, g.runners);
        assert forall r :: r in sorted[..target] ==> r in sorted;
      }
    }
  }

  lemma SameElements(sorted: seq<Runner>, rs: seq<Runner>)
    requires IsSortOf(sorted, rs)
    ensures Elements(sorted) == Elements(rs)
  {
    forall r ensures r in sorted <==> r in rs {
      assert r in multiset(sorted) <==> r in multiset(rs);
    }
  }

  lemma {:induction false} ReplaceAdds(rs: seq<Runner>, prev: Runner, nr: Runner)
    ensures Elements(Replace(rs, prev, nr)) <= Elements(rs) + {nr}
  {
    if prev in rs {
      var j := ReplaceTracked(rs, prev, nr);
    } else {
      ReplaceUntracked(rs, prev, nr);
    }
  }

  // A step only adds runners with new indices.
  lemma StepNumbers(s: Service, e: Event)
    requires Exclusive(s) && Enabled(s, e) && !e.DeleteBegin?
    ensures NewlyNumbered(Known(Next(s, e)), Known(s), s.reg.nextIdx, Next(s, e).reg.nextIdx)
  {
    hide Next, Enabled, Known;
    if e.Start? || e.Restart? || e.Reload? || e.Scale? { CommandNumbers(s, e); } else { TaskNumbers(s, e); }
  }

  // The runners that only a reload refers to, and its snapshot.
  function Held(s: Service): set<Runner> {
    TaskRunners(s.tasks) + (if s.tasks == [] then {} else Elements(s.tasks[0].plan))
  }

  lemma CommandNumbers(s: Service, e: Event)
    requires Exclusive(s) && Enabled(s, e) && (e.Start? || e.Restart? || e.Reload? || e.Scale?)
    ensures NewlyNumbered(Known(Next(s, e)), Known(s), s.reg.nextIdx, Next(s, e).reg.nextIdx)
  {
    var n := Next(s, e);
    CommandHolds(s, e);
    var base := RunnersNumbers(s, e);
    NumberedAmong(Elements(n.reg.runners), base, Held(n), Known(s), s.reg.nextIdx, n.reg.nextIdx);
    assert Known(n) == Elements(n.reg.runners) + Held(n);
  }

  lemma CommandHolds(s: Service, e: Event)
    requires Exclusive(s) && Enabled(s, e) && (e.Start? || e.Restart? || e.Reload? || e.Scale?)
    ensures Held(Next(s, e)) <= Known(s)
  {
    hide Launch, ScaleReg, IsSortOf, AnyRunning;
    if e.Reload? { SameElements(e.plan, s.reg.runners); }
  }

  lemma RunnersNumbers(s: Service, e: Event) returns (base: set<Runner>)
    requires Exclusive(s) && Enabled(s, e) && (e.Start? || e.Restart? || e.Reload? || e.Scale?)
    ensures base <= Elements(s.reg.runners)
    ensures NewlyNumbered(Elements(Next(s, e).reg.runners), base, s.reg.nextIdx, Next(s, e).reg.nextIdx)
  {
    hide Launch, ScaleReg, IsSortOf, AnyRunning;
    base := if Next(s, e).reg.runners == s.reg.runners || e.Scale? then Elements(s.reg.runners) else {};
    match e {
      case Start(request, runnable, addrs, up) =>
        LaunchNumbers(s.reg, request, addrs, up);
        if s.reg.proc.Some? { LaunchNumbers(s.reg, s.reg.proc.value.spec, addrs, up); }
      case Restart(addrs, up) =>
        if s.reg.proc.Some? { LaunchNumbers(s.reg, s.reg.proc.value.spec, addrs, up); }
      case Reload(plan, addrs, up) =>
        if s.reg.proc.Some? { LaunchNumbers(s.reg, s.reg.proc.value.spec, addrs, up); }
      case Scale(target, sorted, addrs, up) =>
        ScaleNumbers(s.reg, target, sorted, addrs, up);
    }
  }

  lemma NumberedAmong(rs: set<Runner>, base: set<Runner>, more: set<Runner>, before: set<Runner>, nextIdx: nat, upto: nat)
    requires NewlyNumbered(rs, base, nextIdx, upto) && base <= before && more <= before
    ensures NewlyNumbered(rs + more, before, nextIdx, upto)
  {
  }

  lemma TaskNumbers(s: Service, e: Event)
    requires Exclusive(s) && Enabled(s, e) && !e.DeleteBegin? && !(e.Start? || e.Restart? || e.Reload? || e.Scale?)
    ensures NewlyNumbered(Known(Next(s, e)), Known(s), s.reg.nextIdx, Next(s, e).reg.nextIdx)
  {
    hide PromoteReg, WriteStatus, RemoveState, Create, NextRunner;
    match e {
      case Promote(k, up) =>
        PromoteKnown(s, e);
      case Spawn(k, found) =>
        SpawnKnown(s.reg, s.tasks[k].spec, s.tasks[k].plan[s.tasks[k].at].slot, found);
      case _ =>
    }
  }

  lemma SpawnKnown(g: Reg, spec: Spec, slot: nat, found: string)
    ensures var h, nr := Create(g, spec, slot, found), NextRunner(g, spec, slot, found);
            h.runners == g.runners && h.nextIdx == g.nextIdx + 1 && nr.index == g.nextIdx
  {
  }

  lemma PromoteKnown(s: Service, e: Event)
    requires Exclusive(s) && Enabled(s, e) && e.Promote?
    ensures Known(Next(s, e)) <= Known(s) && Next(s, e).reg.nextIdx == s.reg.nextIdx
  {
    hide MarkDraining, Upstreams, Replace;
    var t := s.tasks[0];
    ReplaceAdds(s.reg.runners, t.plan[t.at], t.phase.nr);
    assert t.plan[t.at] in Elements(t.plan);
  }

  // Nothing is tracked and no reload runs: a fresh daemon, or after a delete.
  ghost predicate Quiet(s: Service) {
    Exclusive(s) && s.tasks == [] && s.reg.runners == []
  }

  lemma {:induction false} RunNumbers(ss: seq<Service>, es: seq<Event>, a: nat, i: nat)
    requires IsRun(ss, es) && a <= i < |ss| && Quiet(ss[a]) && forall j :: a <= j < i ==> !es[j].DeleteBegin?
    ensures Exclusive(ss[i]) && Numbered(Known(ss[i]), ss[i].reg.nextIdx)
    ensures ss[a].reg.nextIdx <= ss[i].reg.nextIdx
    decreases i - a
  {
    hide Next, Enabled, Known, Numbered, NewlyNumbered;
    if a == i {
      NothingKnown(ss[a]);
    } else {
      RunNumbers(ss, es, a, i - 1);
      assert Enabled(ss[i - 1], es[i - 1]);
      StepKeepsExclusive(ss[i - 1], es[i - 1]);
      StepNumbers(ss[i - 1], es[i - 1]);
      NumberedOn(Known(ss[i]), Known(ss[i - 1]), ss[i - 1].reg.nextIdx, ss[i].reg.nextIdx);
      NumbersGrow(Known(ss[i]), Known(ss[i - 1]), ss[i - 1].reg.nextIdx, ss[i].reg.nextIdx);
    }
  }

  lemma NumbersGrow(rs: set<Runner>, before: set<Runner>, nextIdx: nat, upto: nat)
    requires NewlyNumbered(rs, before, nextIdx, upto)
    ensures nextIdx <= upto
  {
  }

  lemma NothingKnown(s: Service)
    requires Quiet(s)
    ensures Numbered(Known(s), s.reg.nextIdx)
  {
    assert Known(s) == {};
  }

  // Between deletes, and however commands interleave, all the instances that
  // are tracked, warming up, draining or in the snapshot of a reload have
  // different indices below the next one.
  lemma IndicesNeverShared(ss: seq<Service>, es: seq<Event>, a: nat, i: nat, p: Runner, q: Runner)
    requires IsRun(ss, es) && a <= i < |ss| && Quiet(ss[a]) && forall j :: a <= j < i ==> !es[j].DeleteBegin?
    requires p in Known(ss[i]) && q in Known(ss[i]) && p != q
    ensures p.index != q.index && p.index < ss[i].reg.nextIdx && q.index < ss[i].reg.nextIdx
  {
    hide Next, Enabled, Known;
    RunNumbers(ss, es, a, i);
  }
}
