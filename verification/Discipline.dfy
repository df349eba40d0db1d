// The discipline that slots and instance count need of the commands of one
// service, as guards a caller could check before each step, and the proof that
// it is exactly what they need. Addresses and store entries play no part here.
module Discipline {
  import opened Basics
  import opened InstanceList
  import opened Registry
  import opened Protocol
  import opened Invariants
  import opened AnyRun

  // The reload in flight, if any, has no slot left to take over.
  predicate Over(s: Service) {
    s.tasks == [] || LoopOver(s.tasks[0])
  }

  // The step launches the service afresh.
  ghost predicate Launches(s: Service, e: Event) {
    match e
    case Start(_, runnable, _, _) => runnable && !(s.reg.proc.Some? && AnyRunning(s.reg))
    case Restart(_, _) => s.reg.proc.Some?
    case Reload(_, _, _) =>
      s.reg.proc.Some? && s.reg.proc.value.spec.port != 0 && !s.reg.reloading && s.reg.runners == []
    case _ => false
  }

  // Nothing is launched inside a delete; a restart or delete waits until the
  // reload has no slot left, and so does a scale to fewer instances than the
  // reload replaces.
  ghost predicate Harmless(s: Service, e: Event) {
    match e
    case Start(_, _, _, _) => Launches(s, e) ==> s.deleting == 0
    case Reload(_, _, _) => Launches(s, e) ==> s.deleting == 0
    case Restart(_, _) => Launches(s, e) ==> s.deleting == 0 && Over(s)
    case DeleteBegin => s.reg.proc.Some? ==> Over(s)
    case Scale(target, _, _, _) => ScaleAccepted(s.reg, target) ==> Over(s) || target >= |s.tasks[0].plan|
    case _ => true
  }

  // The slots are a permutation of 0 .. count - 1 for the configured count.
  ghost predicate CountKept(g: Reg) {
    g.proc.Some? && SlotsOk(g.runners) && |g.runners| == g.proc.value.spec.Count()
  }

  ghost predicate Broken(s: Service) {
    s.reg.runners != [] && !CountKept(s.reg)
  }

  // ---- the invariant behind it ----

  ghost predicate PlanTidy(t: Task, born: nat) {
    && t.at <= |t.plan|
    && (forall i :: 0 <= i < |t.plan| ==> t.plan[i].slot == i && t.plan[i].id < born)
    && (t.phase.Probing? ==> t.at < |t.plan| && t.phase.nr.slot == t.at && t.phase.nr.id < born)
  }

  ghost predicate StillTracked(t: Task, rs: seq<Runner>) {
    forall i :: t.at <= i < |t.plan| ==> t.plan[i] in rs
  }

  ghost predicate Born(rs: seq<Runner>, born: nat) {
    forall r :: r in rs ==> r.id < born
  }

  ghost predicate Tidy(s: Service) {
    && Exclusive(s)
    && Born(s.reg.runners, s.reg.born)
    && (s.reg.runners != [] ==> s.deleting == 0 && CountKept(s.reg))
    && (s.tasks != [] ==> PlanTidy(s.tasks[0], s.reg.born))
    && (Over(s) || StillTracked(s.tasks[0], s.reg.runners))
  }

  lemma LaunchTidy(g: Reg, spec: Spec, addrs: seq<string>, up: bool)
    ensures var h := Launch(g, spec, addrs, up);
            && h.runners != [] && CountKept(h) && Born(h.runners, h.born)
            && h.born >= g.born && h.reloading == g.reloading
            && (forall r :: r in h.runners ==> r.id >= g.born)
  {
    hide Grow, Upstreams;
    var c := g.(proc := Some(Process(spec, [])), runners := []);
    GrowKeepsFlags(c, spec, 0, spec.Count(), addrs);
    GrowAdds(c, spec, 0, spec.Count(), addrs);
    GrowBorn(c, spec, 0, spec.Count(), addrs);
  }

  lemma GrowBorn(g: Reg, spec: Spec, from: nat, upto: nat, addrs: seq<string>)
    requires Born(g.runners, g.born) && from <= upto
    ensures var h := Grow(g, spec, from, upto, addrs); Born(h.runners, h.born) && h.born >= g.born
  {
    hide Grow;
    GrowAdds(g, spec, from, upto, addrs);
    var h, n := Grow(g, spec, from, upto, addrs), |g.runners|;
    forall k | 0 <= k < |h.runners| ensures h.runners[k].id < h.born {
      if k < n { assert h.runners[k] == g.runners[k]; }
    }
  }

  lemma ScaledUpTidy(g: Reg, target: int, sorted: seq<Runner>, addrs: seq<string>, up: bool)
    requires CountKept(g) && Born(g.runners, g.born)
    requires ScaleAccepted(g, target) && target > |g.runners| == |sorted|
    ensures var h := ScaleReg(g, target, sorted, addrs, up);
            && CountKept(h) && Born(h.runners, h.born) && g.runners <= h.runners
            && h.born >= g.born && h.reloading == g.reloading
            && (forall r :: r in h.runners && r !in g.runners ==> r.id >= g.born)
  {
    hide Grow, Upstreams;
    var spec := g.proc.value.spec;
    GrowKeepsFlags(g, spec, |g.runners|, target, addrs);
    GrowAdds(g, spec, |g.runners|, target, addrs);
    GrowBorn(g, spec, |g.runners|, target, addrs);
    var h := Grow(g, spec, |g.runners|, target, addrs);
    assert forall k :: 0 <= k < |g.runners| ==> h.runners[k] == g.runners[k];
    SlotsExtend(g.runners, h.runners);
  }

  lemma SlotsExtend(rs: seq<Runner>, qs: seq<Runner>)
    requires SlotsOk(rs) && |rs| <= |qs|
    requires forall k :: 0 <= k < |rs| ==> qs[k] == rs[k]
    requires forall k :: |rs| <= k < |qs| ==> qs[k].slot == k
    ensures SlotsOk(qs)
  {
  }

  // Scaling down keeps the runners of the slots below the target.
  lemma KeptBySlot(sorted: seq<Runner>, rs: seq<Runner>, target: nat)
    requires SlotsOk(rs) && IsSortOf(sorted, rs) && target <= |rs|
    ensures |sorted| == |rs| && SlotsOk(sorted[..target])
    ensures forall r :: r in sorted[..target] <==> r in rs && r.slot < target
  {
    hide SlotsOk, IsSortOf;
    SortedSlots(sorted, rs);
    SplitSorted(sorted, rs, target);
    var keep := sorted[..target];
    assert forall r :: r in keep ==> r in Elements(sorted);
    forall r | r in rs && r.slot < target ensures r in keep {
      assert r in Elements(rs) && r in Elements(sorted);
      var i :| 0 <= i < |sorted| && sorted[i] == r;
      assert keep[i] == r;
    }
  }

  lemma ScaledDownTidy(g: Reg, target: int, sorted: seq<Runner>, addrs: seq<string>, up: bool)
    requires CountKept(g) && IsSortOf(sorted, g.runners) && |sorted| == |g.runners|
    requires ScaleAccepted(g, target) && target < |g.runners|
    ensures var h := ScaleReg(g, target, sorted, addrs, up);
            && CountKept(h) && h.born == g.born && h.reloading == g.reloading && h.runners != []
            && (forall r :: r in h.runners <==> r in g.runners && r.slot < target)
  {
    hide SlotsOk, IsSortOf, RemoveStates, Upstreams;
    KeptBySlot(sorted, g.runners, target);
    SpecAfterRemovals(g.proc, sorted[target..]);
  }

  // ---- every harmless step keeps it ----

  lemma LaunchStepTidy(s: Service, e: Event)
    requires Tidy(s) && Enabled(s, e) && Harmless(s, e) && Launches(s, e)
    ensures Tidy(Next(s, e))
  {
    hide Launch, IsSortOf, AnyRunning, SlotsOk;
    var spec := if s.reg.proc.Some? then s.reg.proc.value.spec else e.request;
    LaunchTidy(s.reg, spec, e.addrs, e.up);
    assert Next(s, e).reg == Launch(s.reg, spec, e.addrs, e.up) by { LaunchedReg(s, e, spec); }
    assert Next(s, e).tasks == s.tasks;
    assert Over(s) by { if !Over(s) { assert s.tasks[0].plan[s.tasks[0].at] in s.reg.runners; NoLaunchWhileTracked(s, e); } }
  }

  lemma LaunchedReg(s: Service, e: Event, spec: Spec)
    requires Enabled(s, e) && Launches(s, e) && spec == if s.reg.proc.Some? then s.reg.proc.value.spec else e.request
    ensures Next(s, e).reg == Launch(s.reg, spec, e.addrs, e.up)
  {
    hide Launch, IsSortOf, AnyRunning;
  }

  lemma NoLaunchWhileTracked(s: Service, e: Event)
    requires Enabled(s, e) && Launches(s, e) && Harmless(s, e) && s.reg.runners != [] && s.reg.proc.Some?
    ensures e.Restart? && Over(s)
  {
  }

  lemma ScaleStepTidy(s: Service, e: Event)
    requires Tidy(s) && Enabled(s, e) && Harmless(s, e) && e.Scale? && ScaleAccepted(s.reg, e.target)
    ensures Tidy(Next(s, e))
  {
    hide ScaleReg, IsSortOf, SlotsOk;
    if e.target > |s.reg.runners| {
      ScaledUpTidy(s.reg, e.target, e.sorted, e.addrs, e.up);
      PrefixTracked(s.reg.runners, Next(s, e).reg.runners);
    } else {
      ScaledDownTidy(s.reg, e.target, e.sorted, e.addrs, e.up);
    }
  }

  lemma PrefixTracked(rs: seq<Runner>, qs: seq<Runner>)
    requires rs <= qs
    ensures forall r :: r in rs ==> r in qs
  {
    forall r | r in rs ensures r in qs {
      var i :| 0 <= i < |rs| && rs[i] == r;
      assert qs[i] == r;
    }
  }

  lemma PromoteStepTidy(s: Service, e: Event)
    requires Tidy(s) && Enabled(s, e) && e.Promote?
    ensures Tidy(Next(s, e))
  {
    hide PromoteReg, Replace, SlotsOk;
    var t, rs := s.tasks[0], s.reg.runners;
    var prev, nr := t.plan[t.at], t.phase.nr;
    assert prev in rs;
    SwapOk(rs, prev, nr);
    PromoteSpec(s.reg, t.spec, prev, nr, e.up);
    var n := Next(s, e);
    assert forall r :: r in n.reg.runners ==> r in Elements(n.reg.runners);
    assert Born(n.reg.runners, n.reg.born);
    forall i | t.at < i < |t.plan| ensures t.plan[i] in n.reg.runners {
      assert t.plan[i] in Elements(rs) && t.plan[i] != prev;
      assert t.plan[i] in Elements(n.reg.runners);
    }
  }

  lemma ReloadStepTidy(s: Service, e: Event)
    requires Tidy(s) && Enabled(s, e) && e.Reload? && ReloadBegins(s.reg)
    ensures Tidy(Next(s, e))
  {
    hide SlotsOk, IsSortOf;
    var n := Next(s, e);
    assert s.tasks == [] && n.tasks == [Task(s.reg.proc.value.spec, e.plan, 0, AtSlot, {}, {}, s.reg.born)];
    SortedSlots(e.plan, s.reg.runners);
    forall i | 0 <= i < |e.plan| ensures e.plan[i] in s.reg.runners {
      assert e.plan[i] in Elements(e.plan);
      assert e.plan[i] in Elements(s.reg.runners);
    }
    assert PlanTidy(n.tasks[0], n.reg.born) && StillTracked(n.tasks[0], n.reg.runners);
  }

  lemma OtherStepTidy(s: Service, e: Event)
    requires Tidy(s) && Enabled(s, e) && Harmless(s, e) && !e.Promote? && !Launches(s, e)
    requires !(e.Scale? && ScaleAccepted(s.reg, e.target)) && !(e.Reload? && ReloadBegins(s.reg))
    ensures Tidy(Next(s, e))
  {
    hide Launch, IsSortOf, AnyRunning, SlotsOk, Lookup, Upsert, Without, Live;
  }

  lemma StepTidy(s: Service, e: Event)
    requires Tidy(s) && Enabled(s, e) && Harmless(s, e)
    ensures Tidy(Next(s, e))
  {
    hide Tidy, Next, Enabled, Harmless, Launches;
    if Launches(s, e) {
      LaunchStepTidy(s, e);
    } else if e.Scale? && ScaleAccepted(s.reg, e.target) {
      ScaleStepTidy(s, e);
    } else if e.Promote? {
      PromoteStepTidy(s, e);
    } else if e.Reload? && ReloadBegins(s.reg) {
      ReloadStepTidy(s, e);
    } else {
      OtherStepTidy(s, e);
    }
  }

  ghost predicate AllHarmless(ss: seq<Service>, es: seq<Event>)
    ensures AllHarmless(ss, es) ==> |ss| == |es| + 1
  {
    IsRun(ss, es) && forall i :: 0 <= i < |es| ==> Harmless(ss[i], es[i])
  }

  lemma {:induction false} TidyForever(ss: seq<Service>, es: seq<Event>, i: nat)
    requires AllHarmless(ss, es) && Tidy(ss[0]) && i < |ss|
    ensures Tidy(ss[i])
  {
    hide Tidy, Next, Enabled, Harmless;
    if i > 0 {
      TidyForever(ss, es, i - 1);
      StepTidy(ss[i - 1], es[i - 1]);
    }
  }

  // In every run of harmless steps the slots of the tracked instances are a
  // permutation of 0 .. count - 1 in every state.
  lemma SlotsForever(ss: seq<Service>, es: seq<Event>, i: nat)
    requires AllHarmless(ss, es) && Init(ss[0]) && i < |ss|
    ensures Tidy(ss[i]) && (ss[i].reg.runners != [] ==> CountKept(ss[i].reg))
  {
    hide AllHarmless, SlotsOk;
    TidyForever(ss, es, i);
  }

  // ---- and no tracked instance is told to stop ----

  ghost predicate Untold(s: Service) {
    && (forall r :: r in s.told + TaskRunners(s.tasks) ==> r.id < s.reg.born)
    && (forall r :: r in s.reg.runners ==> r !in s.told + TaskRunners(s.tasks))
    && (s.tasks != [] && s.tasks[0].phase.Probing? ==> s.tasks[0].phase.nr !in s.told + s.tasks[0].drains + s.tasks[0].dying)
  }

  lemma FreshUntold(s: Service, n: Service)
    requires Untold(s) && n.told == s.told && n.tasks == s.tasks && n.reg.born >= s.reg.born
    requires forall r :: r in n.reg.runners ==> r in s.reg.runners || r.id >= s.reg.born
    ensures Untold(n)
  {
  }

  lemma CommandUntold(s: Service, e: Event)
    requires Tidy(s) && Untold(s) && Enabled(s, e) && Harmless(s, e)
    requires Launches(s, e) || (e.Scale? && ScaleAccepted(s.reg, e.target))
    ensures Untold(Next(s, e))
  {
    hide Untold, Launch, ScaleReg, IsSortOf, AnyRunning, SlotsOk;
    if Launches(s, e) {
      var spec := if s.reg.proc.Some? then s.reg.proc.value.spec else e.request;
      LaunchedReg(s, e, spec);
      LaunchTidy(s.reg, spec, e.addrs, e.up);
    } else if e.target > |s.reg.runners| {
      ScaledUpTidy(s.reg, e.target, e.sorted, e.addrs, e.up);
    } else {
      ScaledDownTidy(s.reg, e.target, e.sorted, e.addrs, e.up);
    }
    FreshUntold(s, Next(s, e));
  }

  lemma PromoteUntold(s: Service, e: Event)
    requires Tidy(s) && Untold(s) && Enabled(s, e) && e.Promote?
    ensures Untold(Next(s, e))
  {
    hide PromoteReg, Replace, SlotsOk;
    var t, rs := s.tasks[0], s.reg.runners;
    var prev, nr := t.plan[t.at], t.phase.nr;
    assert prev in rs && nr in TaskRunners(s.tasks);
    SwapOk(rs, prev, nr);
    PromoteSpec(s.reg, t.spec, prev, nr, e.up);
    var n := Next(s, e);
    forall r | r in n.reg.runners ensures r !in n.told + TaskRunners(n.tasks) {
      assert r in Elements(n.reg.runners);
      assert r == nr || (r in rs && r != prev);
      assert TaskRunners(n.tasks) == t.drains + {prev} + t.dying;
    }
  }

  lemma OtherUntold(s: Service, e: Event)
    requires Tidy(s) && Untold(s) && Enabled(s, e) && Harmless(s, e) && !e.Promote? && !Launches(s, e)
    requires !(e.Scale? && ScaleAccepted(s.reg, e.target))
    ensures Untold(Next(s, e))
  {
    hide Launch, IsSortOf, AnyRunning, SlotsOk, WriteStatus, RemoveState, SetState, CountKept, PlanTidy, StillTracked;
  }

  lemma {:induction false} UntoldForever(ss: seq<Service>, es: seq<Event>, i: nat)
    requires AllHarmless(ss, es) && Init(ss[0]) && i < |ss|
    ensures Tidy(ss[i]) && Untold(ss[i])
  {
    hide Tidy, Next, Enabled, Harmless, Launches, CountKept;
    SlotsForever(ss, es, i);
    if i == 0 {
      assert TaskRunners(ss[0].tasks) == {};
    } else {
      UntoldForever(ss, es, i - 1);
      var s, e := ss[i - 1], es[i - 1];
      if Launches(s, e) || (e.Scale? && ScaleAccepted(s.reg, e.target)) {
        CommandUntold(s, e);
      } else if e.Promote? {
        PromoteUntold(s, e);
      } else {
        OtherUntold(s, e);
      }
    }
  }

  // In every run of harmless steps each slot of a running service has a tracked
  // instance that no reload has told to stop or is about to.
  lemma SlotServed(ss: seq<Service>, es: seq<Event>, i: nat, slot: nat) returns (r: Runner)
    requires AllHarmless(ss, es) && Init(ss[0]) && i < |ss| && slot < |ss[i].reg.runners|
    ensures r in ss[i].reg.runners && r.slot == slot && r !in ss[i].told + TaskRunners(ss[i].tasks)
    ensures CountKept(ss[i].reg)
  {
    hide AllHarmless, SlotsOk;
    UntoldForever(ss, es, i);
    r := SlotHolder(ss[i].reg.runners, slot);
  }

  // ---- and nothing weaker will do ----

  lemma Prepend(s: Service, e: Event, ss: seq<Service>, es: seq<Event>)
    requires Enabled(s, e) && Harmless(s, e) && AllHarmless(ss, es) && ss[0] == Next(s, e)
    ensures AllHarmless([s] + ss, [e] + es) && ([s] + ss)[|es| + 1] == ss[|es|]
  {
    hide Next, Enabled, Harmless;
  }

  lemma NoStep(s: Service)
    ensures AllHarmless([s], [])
  {
  }

  // A reload under way that will find the instance of slot k untracked.
  ghost predicate Doomed(s: Service, k: nat) {
    && |s.tasks| == 1 && !s.tasks[0].phase.Aborted? && PlanTidy(s.tasks[0], s.reg.born)
    && s.tasks[0].at <= k < |s.tasks[0].plan| && s.tasks[0].plan[k] !in s.reg.runners
    && s.reg.proc.Some? && |s.reg.runners| >= s.reg.proc.value.spec.Count()
  }

  // If its probes succeed, it tracks more instances than configured.
  lemma {:induction false} RollToBreak(s: Service, k: nat) returns (ss: seq<Service>, es: seq<Event>)
    requires Doomed(s, k) && |s.tasks| == 1 && s.tasks[0].at <= k
    ensures AllHarmless(ss, es) && ss[0] == s && Broken(ss[|es|])
    decreases k - s.tasks[0].at, if s.tasks[0].phase.Probing? then 0 else 1
  {
    hide Doomed, AllHarmless, Broken, Next, Enabled;
    var e := RollOn(s, k);
    var n := Next(s, e);
    if e.Promote? && s.tasks[0].at == k {
      NoStep(n);
      ss, es := [n], [];
    } else {
      ss, es := RollToBreak(n, k);
    }
    Prepend(s, e, ss, es);
    ss, es := [s] + ss, [e] + es;
  }

  lemma RollOn(s: Service, k: nat) returns (e: Event)
    requires Doomed(s, k)
    ensures |s.tasks| == 1 && e == if s.tasks[0].phase.Probing? then Promote(0, true) else Spawn(0, "")
    ensures Enabled(s, e) && Harmless(s, e)
    ensures |Next(s, e).tasks| == 1
    ensures if e.Promote? && s.tasks[0].at == k then Broken(Next(s, e))
            else Doomed(Next(s, e), k) && Next(s, e).tasks[0].at <= k &&
                 if e.Promote? then Next(s, e).tasks[0].at == s.tasks[0].at + 1
                 else Next(s, e).tasks[0].at == s.tasks[0].at && Next(s, e).tasks[0].phase.Probing?
  {
    hide MarkDraining, Replace, Upstreams, SetState, SlotsOk;
    var t := s.tasks[0];
    e := if t.phase.Probing? then Promote(0, true) else Spawn(0, "");
    if e.Promote? {
      var rs, prev, nr := s.reg.runners, t.plan[t.at], t.phase.nr;
      PromoteSpec(s.reg, t.spec, prev, nr, true);
      if t.at == k {
        ReplaceUntracked(rs, prev, nr);
      } else {
        ReplaceGrows(rs, prev, nr);
        ReplaceAdds(rs, prev, nr);
        assert t.plan[k] !in Elements(rs) + {nr};
        assert t.plan[k] !in Elements(Replace(rs, prev, nr));
      }
    } else {
      CreateKeepsFront(s.reg, t.spec, t.plan[t.at].slot, "");
    }
  }

  lemma PromoteSpec(g: Reg, spec: Spec, prev: Runner, nw: Runner, up: bool)
    ensures var h := PromoteReg(g, spec, prev, nw, up);
            h.runners == Replace(g.runners, prev, nw) && h.born == g.born && h.reloading == g.reloading && h.proc.Some? == g.proc.Some? &&
            (g.proc.Some? ==> h.proc.value.spec == g.proc.value.spec)
  {
  }

  lemma ReplaceGrows(rs: seq<Runner>, prev: Runner, nr: Runner)
    ensures |Replace(rs, prev, nr)| >= |rs|
  {
    if prev in rs { var j := ReplaceTracked(rs, prev, nr); } else { ReplaceUntracked(rs, prev, nr); }
  }

  // A service that tracks instances when a delete ends is not registered any more.
  lemma ForgottenAtEnd(s: Service) returns (ss: seq<Service>, es: seq<Event>)
    requires s.deleting > 0 && s.reg.runners != []
    ensures AllHarmless(ss, es) && ss[0] == s && Broken(ss[|es|])
  {
    hide SlotsOk;
    var n := Next(s, DeleteEnd);
    NoStep(n);
    assert Broken(n);
    Prepend(s, DeleteEnd, [n], []);
    ss, es := [s] + [n], [DeleteEnd] + [];
  }

  // A promotion inside a delete.
  lemma PromotedInside(s: Service) returns (ss: seq<Service>, es: seq<Event>)
    requires s.deleting > 0 && |s.tasks| == 1 && !LoopOver(s.tasks[0]) && PlanTidy(s.tasks[0], s.reg.born)
    ensures AllHarmless(ss, es) && ss[0] == s && Broken(ss[|es|])
    decreases if s.tasks[0].phase.AtSlot? then 1 else 0
  {
    hide AllHarmless, Broken, PromoteReg, Create, NextRunner;
    var t := s.tasks[0];
    var e := if t.phase.Probing? then Promote(0, true) else Spawn(0, "");
    var n := Next(s, e);
    if t.phase.Probing? {
      PromoteSpec(s.reg, t.spec, t.plan[t.at], t.phase.nr, true);
      ReplaceNonempty(s.reg.runners, t.plan[t.at], t.phase.nr);
      ss, es := ForgottenAtEnd(n);
    } else {
      SpawnTidy(s.reg, t, n.reg);
      ss, es := PromotedInside(n);
    }
    Prepend(s, e, ss, es);
    ss, es := [s] + ss, [e] + es;
  }

  lemma SpawnTidy(g: Reg, t: Task, h: Reg)
    requires PlanTidy(t, g.born) && t.at < |t.plan| && h == Create(g, t.spec, t.plan[t.at].slot, "")
    ensures PlanTidy(t.(phase := Probing(NextRunner(g, t.spec, t.plan[t.at].slot, ""))), h.born)
  {
  }

  lemma ReplaceNonempty(rs: seq<Runner>, prev: Runner, nr: Runner)
    ensures Replace(rs, prev, nr) != []
  {
  }

  // After any step that is not harmless there is a run of harmless steps to a
  // state with wrong slots or a wrong count.
  lemma HarmfulBreaks(s: Service, e: Event) returns (ss: seq<Service>, es: seq<Event>)
    requires Tidy(s) && Enabled(s, e) && !Harmless(s, e)
    ensures AllHarmless(ss, es) && ss[0] == Next(s, e) && Broken(ss[|es|])
  {
    hide AllHarmless, Broken, IsSortOf, AnyRunning, Launch, ScaleReg, SlotsOk;
    var n := Next(s, e);
    if Launches(s, e) {
      var spec := if s.reg.proc.Some? then s.reg.proc.value.spec else e.request;
      LaunchedReg(s, e, spec);
      LaunchTidy(s.reg, spec, e.addrs, e.up);
      if s.deleting > 0 {
        ss, es := ForgottenAtEnd(n);
      } else {
        ss, es := RollToBreak(n, s.tasks[0].at);
      }
    } else if e.DeleteBegin? {
      ss, es := PromotedInside(n);
    } else {
      PlanWithin(s);
      ScaledDownTidy(s.reg, e.target, e.sorted, e.addrs, e.up);
      var t := s.tasks[0];
      ss, es := RollToBreak(n, if t.at > e.target then t.at else e.target);
    }
  }

  lemma PlanWithin(s: Service)
    requires Tidy(s) && !Over(s)
    ensures |s.tasks[0].plan| <= |s.reg.runners|
  {
    var plan := s.tasks[0].plan;
    assert plan[|plan| - 1] in s.reg.runners;
  }

  // The discipline is exact: from a state with correct slots and count, a step
  // is harmless if and only if no run of harmless steps after it ever gets them
  // wrong.
  lemma DisciplineIsExact(s: Service, e: Event)
    requires Tidy(s) && Enabled(s, e)
    ensures Harmless(s, e) <==>
              forall ss, es :: AllHarmless(ss, es) && ss[0] == Next(s, e) ==> !Broken(ss[|es|])
  {
    hide AllHarmless, Tidy, Broken, Next, Enabled, Harmless;
    if Harmless(s, e) {
      StepTidy(s, e);
      forall ss, es | AllHarmless(ss, es) && ss[0] == Next(s, e) ensures !Broken(ss[|es|]) {
        TidyForever(ss, es, |es|);
        TidyIsWhole(ss[|es|]);
      }
    } else {
      var ss, es := HarmfulBreaks(s, e);
    }
  }

  lemma TidyIsWhole(s: Service)
    requires Tidy(s)
    ensures !Broken(s)
  {
    hide SlotsOk;
  }

  // Every orderly step is harmless.
  lemma OrderlyIsHarmless(s: Service, e: Event)
    requires Tidy(s) && Enabled(s, e) && Orderly(s, e)
    ensures Harmless(s, e)
  {
    hide AnyRunning, IsSortOf;
    if !Over(s) { PlanWithin(s); }
  }
}
