// The front proxy of a name that may be registered in one mode after the other:
// the discipline that its upstreams need of the commands, as guards a caller
// could check before each step, and the proof that it is exactly what they
// need.
module Front {
  import opened Basics
  import opened InstanceList
  import opened Registry
  import opened Sorting
  import opened Protocol
  import opened Invariants
  import opened ReloadResults
  import opened AnyRun
  import opened Discipline
  import opened Overlap

  // A live front proxy publishes the addresses of the tracked runners in order.
  ghost predicate FrontRight(s: Service) {
    s.reg.front.Some? ==> s.reg.front.value == Upstreams(s.reg.runners)
  }

  // The spec that a step launches or whose service it deletes.
  function SpecFor(s: Service, e: Event): Spec
    requires s.reg.proc.Some? || e.Start?
  {
    if s.reg.proc.Some? then s.reg.proc.value.spec else e.request
  }

  // A delete waits until the reload has no slot left, and nothing with a port
  // is launched inside a delete.
  ghost predicate FrontSafe(s: Service, e: Event) {
    if e.DeleteBegin? then s.reg.proc.Some? ==> Over(s)
    else Launches(s, e) && s.deleting > 0 ==> SpecFor(s, e).port == 0
  }

  ghost predicate AllFrontSafe(ss: seq<Service>, es: seq<Event>)
    ensures AllFrontSafe(ss, es) ==> |ss| == |es| + 1
  {
    IsRun(ss, es) && forall i :: 0 <= i < |es| ==> FrontSafe(ss[i], es[i])
  }

  // ---- the invariant behind it ----

  ghost predicate InPlan(t: Task, born: nat) {
    t.at <= |t.plan| && (t.phase.Probing? ==> t.at < |t.plan| && t.phase.nr.id < born)
  }

  // The reload in flight serves a registered service of its own mode.
  ghost predicate ModeKept(t: Task, g: Reg) {
    g.runners != [] && g.proc.Some? && g.proc.value.spec.port != 0 && t.spec.Fronted() == g.proc.value.spec.Fronted()
  }

  ghost predicate FrontInv(s: Service) {
    && Exclusive(s) && Born(s.reg.runners, s.reg.born)
    && FrontOk(s.reg)
    && (s.reg.front.Some? ==> s.reg.runners != [] && s.deleting == 0)
    && (s.deleting > 0 && s.reg.runners != [] && s.reg.proc.Some? ==> s.reg.proc.value.spec.port == 0)
    && (s.tasks != [] ==> InPlan(s.tasks[0], s.reg.born))
    && (Over(s) || (s.deleting == 0 && ModeKept(s.tasks[0], s.reg)))
  }

  // ---- every safe step keeps it ----

  lemma LaunchStepFront(s: Service, e: Event)
    requires FrontInv(s) && Enabled(s, e) && FrontSafe(s, e) && Launches(s, e)
    ensures FrontInv(Next(s, e))
  {
    hide Launch, IsSortOf, SlotsOk, Upstreams;
    var spec := SpecFor(s, e);
    LaunchedReg(s, e, spec);
    LaunchTidy(s.reg, spec, e.addrs, e.up);
    assert s.reg.front.Some? ==> spec.Fronted();
    LaunchMatches(s.reg, spec, e.addrs, e.up);
    LaunchSpec(s.reg, spec, e.addrs, e.up);
    assert Next(s, e).tasks == s.tasks && Next(s, e).deleting == s.deleting;
    assert Over(s) || e.Restart?;
  }

  lemma LaunchSpec(g: Reg, spec: Spec, addrs: seq<string>, up: bool)
    ensures var h := Launch(g, spec, addrs, up);
            && h.proc.Some? && h.proc.value.spec == spec
            && (!spec.Fronted() ==> h.front == g.front)
            && (spec.Fronted() && up ==> h.front.Some?)
            && (spec.Fronted() && !up ==> h.front.Some? == g.front.Some?)
  {
    hide Grow, Upstreams;
    GrowKeepsFlags(g.(proc := Some(Process(spec, [])), runners := []), spec, 0, spec.Count(), addrs);
  }

  lemma ScaleSpec(g: Reg, target: int, sorted: seq<Runner>, addrs: seq<string>, up: bool)
    requires ScaleAccepted(g, target) && IsSortOf(sorted, g.runners) && |sorted| == |g.runners| && Born(g.runners, g.born)
    ensures var h := ScaleReg(g, target, sorted, addrs, up);
            && h.runners != [] && Born(h.runners, h.born) && h.born >= g.born && h.reloading == g.reloading
            && h.proc.Some? && h.proc.value.spec == g.proc.value.spec.(instances := target)
  {
    hide Grow, RemoveStates, Upstreams;
    var spec := g.proc.value.spec;
    if target > |g.runners| {
      GrowKeepsFlags(g, spec, |g.runners|, target, addrs);
      GrowBorn(g, spec, |g.runners|, target, addrs);
      GrowAdds(g, spec, |g.runners|, target, addrs);
    } else {
      SpecAfterRemovals(g.proc, sorted[target..]);
      SameElements(sorted, g.runners);
      forall r | r in sorted[..target] ensures r.id < g.born { assert r in Elements(sorted); }
    }
  }

  lemma ScaleStepFront(s: Service, e: Event)
    requires FrontInv(s) && Enabled(s, e) && e.Scale? && ScaleAccepted(s.reg, e.target)
    ensures FrontInv(Next(s, e))
  {
    hide ScaleReg, IsSortOf, Upstreams;
    var fronted := s.reg.proc.value.spec.Fronted();
    ScaleMatches(s.reg, e.target, e.sorted, e.addrs, e.up, fronted);
    ScaleSpec(s.reg, e.target, e.sorted, e.addrs, e.up);
    ScaleOpens(s.reg, e.target, e.sorted, e.addrs, e.up);
  }

  // A scale opens a front proxy only for a proxied service.
  lemma ScaleOpens(g: Reg, target: int, sorted: seq<Runner>, addrs: seq<string>, up: bool)
    requires |sorted| == |g.runners|
    ensures var h := ScaleReg(g, target, sorted, addrs, up);
            h.front.Some? <==> g.front.Some? || (ScaleAccepted(g, target) && g.proc.value.spec.Fronted() && up)
    ensures ScaleAccepted(g, target) && !g.proc.value.spec.Fronted() ==> ScaleReg(g, target, sorted, addrs, up).front == g.front
  {
    hide Grow, RemoveStates, Upstreams;
    if ScaleAccepted(g, target) && target > |g.runners| {
      GrowKeepsFlags(g, g.proc.value.spec, |g.runners|, target, addrs);
    }
  }

  lemma PromoteStepFront(s: Service, e: Event)
    requires FrontInv(s) && Enabled(s, e) && e.Promote?
    ensures FrontInv(Next(s, e))
  {
    hide PromoteReg, Replace, Upstreams;
    var t, rs := s.tasks[0], s.reg.runners;
    var prev, nr := t.plan[t.at], t.phase.nr;
    PromoteSpec(s.reg, t.spec, prev, nr, e.up);
    PromoteMatches(s.reg, t.spec, prev, nr, e.up);
    ReplaceAdds(rs, prev, nr);
    ReplaceNonempty(rs, prev, nr);
    var n := Next(s, e);
    forall r | r in n.reg.runners ensures r.id < n.reg.born { assert r in Elements(rs) + {nr}; }
  }

  lemma OtherStepFront(s: Service, e: Event)
    requires FrontInv(s) && Enabled(s, e) && FrontSafe(s, e) && !e.Promote? && !Launches(s, e)
    requires !(e.Scale? && ScaleAccepted(s.reg, e.target))
    ensures FrontInv(Next(s, e))
  {
    hide Launch, IsSortOf, AnyRunning, Lookup, Upsert, Without, Live, Upstreams;
    if e.Reload? && ReloadBegins(s.reg) { assert s.tasks == []; }
  }

  lemma StepFront(s: Service, e: Event)
    requires FrontInv(s) && Enabled(s, e) && FrontSafe(s, e)
    ensures FrontInv(Next(s, e))
  {
    hide FrontInv, Next, Enabled, FrontSafe, Launches;
    if Launches(s, e) {
      LaunchStepFront(s, e);
    } else if e.Scale? && ScaleAccepted(s.reg, e.target) {
      ScaleStepFront(s, e);
    } else if e.Promote? {
      PromoteStepFront(s, e);
    } else {
      OtherStepFront(s, e);
    }
  }

  lemma {:induction false} FrontInvForever(ss: seq<Service>, es: seq<Event>, i: nat)
    requires AllFrontSafe(ss, es) && FrontInv(ss[0]) && i < |ss|
    ensures FrontInv(ss[i])
  {
    hide FrontInv, Next, Enabled, FrontSafe;
    if i > 0 {
      FrontInvForever(ss, es, i - 1);
      StepFront(ss[i - 1], es[i - 1]);
    }
  }

  lemma HarmlessIsFrontSafe(s: Service, e: Event)
    requires Harmless(s, e)
    ensures FrontSafe(s, e)
  {
    hide AnyRunning;
  }

  lemma AllHarmlessIsFrontSafe(ss: seq<Service>, es: seq<Event>)
    requires AllHarmless(ss, es)
    ensures AllFrontSafe(ss, es)
  {
    hide Harmless, FrontSafe, Next, Enabled;
    forall i | 0 <= i < |es| ensures FrontSafe(ss[i], es[i]) {
      HarmlessIsFrontSafe(ss[i], es[i]);
    }
  }

  lemma InitFront(s: Service)
    requires Init(s)
    ensures FrontInv(s)
  {
  }

  // In every run of steps that are safe for the front proxy, and so in every
  // run of harmless ones, whatever the modes a name is registered in: a live
  // front proxy belongs to a proxied service and publishes the addresses of its
  // tracked instances in order.
  lemma FrontForever(ss: seq<Service>, es: seq<Event>, i: nat)
    requires AllFrontSafe(ss, es) && Init(ss[0]) && i < |ss|
    ensures FrontRight(ss[i]) && FrontOk(ss[i].reg)
  {
    hide AllFrontSafe, Init, Upstreams;
    InitFront(ss[0]);
    FrontInvForever(ss, es, i);
  }

  // ---- and nothing weaker will do ----

  ghost predicate Wrong(s: Service) {
    !FrontRight(s)
  }

  lemma WrongNow(s: Service) returns (ss: seq<Service>, es: seq<Event>)
    requires Wrong(s)
    ensures AllHarmless(ss, es) && ss[0] == s && Wrong(ss[|es|])
  {
    NoStep(s);
    ss, es := [s], [];
  }

  // A front proxy of a service that is no longer proxied misses the instances
  // that a scale adds.
  lemma ScaleLeavesFront(s: Service) returns (ss: seq<Service>, es: seq<Event>)
    requires s.reg.front.Some? && s.reg.runners != [] && |s.tasks| == 1
    requires s.reg.proc.Some? && !s.reg.proc.value.spec.Fronted() && s.reg.proc.value.spec.port > 0
    ensures AllHarmless(ss, es) && ss[0] == s && Wrong(ss[|es|])
  {
    hide AllHarmless, ScaleReg, IsSortOf, SortBySlot, Upstreams;
    if Wrong(s) {
      ss, es := WrongNow(s);
    } else {
      var g := s.reg;
      var target := |g.runners| + |s.tasks[0].plan| + 1;
      var addrs := seq(target, _ => "x");
      var e := Scale(target, SortBySlot(g.runners), addrs, true);
      SortSorts(g.runners);
      var n := Next(s, e);
      ScaleOpens(g, target, e.sorted, addrs, true);
      ScaleAddsUpstreams(g, target, e.sorted, addrs, true);
      ss, es := WrongNow(n);
      Prepend(s, e, ss, es);
      ss, es := [s] + ss, [e] + es;
    }
  }

  lemma ScaleAddsUpstreams(g: Reg, target: int, sorted: seq<Runner>, addrs: seq<string>, up: bool)
    requires g.proc.Some? && g.proc.value.spec.port > 0 && g.runners != [] && target > |g.runners| == |sorted|
    requires |addrs| == target && addrs[target - 1] == "x"
    ensures Upstreams(ScaleReg(g, target, sorted, addrs, up).runners) != Upstreams(g.runners)
  {
    hide Upstreams;
    var spec := g.proc.value.spec;
    GrowAddsUpstreams(g, spec, |g.runners|, target, addrs);
  }

  lemma {:induction false} GrowAddsUpstreams(g: Reg, spec: Spec, from: nat, upto: nat, addrs: seq<string>)
    requires from <= upto == |addrs| && spec.port > 0 && (from < upto ==> addrs[upto - 1] == "x")
    ensures |Upstreams(Grow(g, spec, from, upto, addrs).runners)| >= |Upstreams(g.runners)| + if from < upto then 1 else 0
    decreases upto - from
  {
    hide Upstreams, SetState;
    if from < upto {
      var h := AddInstance(g, spec, from, Found(addrs, from));
      UpstreamsSnoc(g.runners, NextRunner(g, spec, from, Found(addrs, from)));
      GrowAddsUpstreams(h, spec, from + 1, upto, addrs);
    }
  }

  // A reload whose service has been registered again in the other mode.
  ghost predicate Crossed(s: Service) {
    && |s.tasks| == 1 && s.reg.proc.Some? && s.reg.proc.value.spec.port > 0 && s.reg.runners != []
    && (var t, q := s.tasks[0], s.reg.proc.value.spec;
        && t.phase.AtSlot? && t.at < |t.plan| && t.plan[t.at] !in s.reg.runners
        && t.spec.port > 0 && t.spec.Fronted() != q.Fronted() && (q.Fronted() ==> s.reg.front.Some?))
  }

  lemma CrossedGoesWrong(s: Service) returns (ss: seq<Service>, es: seq<Event>)
    requires Crossed(s)
    ensures AllHarmless(ss, es) && ss[0] == s && Wrong(ss[|es|])
  {
    hide AllHarmless, Upstreams, Crossed, Next, Enabled, Wrong, Harmless;
    if Wrong(s) {
      ss, es := WrongNow(s);
    } else {
      var m, n := CrossedSteps(s);
      if Wrong(n) {
        ss, es := WrongNow(n);
      } else {
        ss, es := ScaleLeavesFront(n);
      }
      Prepend(m, Promote(0, true), ss, es);
      ss, es := [m] + ss, [Promote(0, true)] + es;
      Prepend(s, Spawn(0, "x"), ss, es);
      ss, es := [s] + ss, [Spawn(0, "x")] + es;
    }
  }

  lemma CrossedSteps(s: Service) returns (m: Service, n: Service)
    requires Crossed(s) && !Wrong(s)
    ensures Enabled(s, Spawn(0, "x")) && Harmless(s, Spawn(0, "x")) && m == Next(s, Spawn(0, "x"))
    ensures Enabled(m, Promote(0, true)) && Harmless(m, Promote(0, true)) && n == Next(m, Promote(0, true))
    ensures Wrong(n) || (n.reg.front.Some? && n.reg.runners != [] && |n.tasks| == 1 &&
                         n.reg.proc.Some? && !n.reg.proc.value.spec.Fronted() && n.reg.proc.value.spec.port > 0)
  {
    hide Upstreams, SetState, MarkDraining, Replace;
    var t, g := s.tasks[0], s.reg;
    var nr := NextRunner(g, t.spec, t.plan[t.at].slot, "x");
    m := Next(s, Spawn(0, "x"));
    CreateKeepsFront(g, t.spec, t.plan[t.at].slot, "x");
    PromoteSpec(m.reg, t.spec, t.plan[t.at], nr, true);
    ReplaceUntracked(g.runners, t.plan[t.at], nr);
    UpstreamsSnoc(g.runners, nr);
    n := Next(m, Promote(0, true));
    assert n.reg.runners == g.runners + [nr];
  }

  // The name of a reload's service that is not registered any more.
  ghost predicate Forgotten(s: Service) {
    && |s.tasks| == 1 && s.tasks[0].spec.port > 0
    && s.tasks[0].phase.AtSlot? && s.tasks[0].at < |s.tasks[0].plan|
    && (forall i :: 0 <= i < |s.tasks[0].plan| ==> s.tasks[0].plan[i].id < s.reg.born)
  }

  lemma RegisteredAgain(s: Service) returns (ss: seq<Service>, es: seq<Event>)
    requires Forgotten(s) && s.reg.proc.None? && s.deleting == 0
    ensures AllHarmless(ss, es) && ss[0] == s && Wrong(ss[|es|])
  {
    hide AllHarmless, Upstreams, Launch, Wrong;
    var q := Spec(1, 1, if s.tasks[0].spec.Fronted() then Reuseport else Proxy);
    var e := Start(q, true, [], true);
    LaunchedReg(s, e, q);
    LaunchTidy(s.reg, q, [], true);
    LaunchSpec(s.reg, q, [], true);
    var n := Next(s, e);
    ss, es := CrossedGoesWrong(n);
    Prepend(s, e, ss, es);
    ss, es := [s] + ss, [e] + es;
  }

  lemma {:induction false} DeletesEnd(s: Service) returns (ss: seq<Service>, es: seq<Event>)
    requires Forgotten(s) && (s.deleting == 0 ==> s.reg.proc.None?)
    ensures AllHarmless(ss, es) && ss[0] == s && Wrong(ss[|es|])
    decreases s.deleting
  {
    hide AllHarmless, Wrong;
    if s.deleting == 0 {
      ss, es := RegisteredAgain(s);
    } else {
      var n := Next(s, DeleteEnd);
      ss, es := DeletesEnd(n);
      Prepend(s, DeleteEnd, ss, es);
      ss, es := [s] + ss, [DeleteEnd] + es;
    }
  }

  // Inside a delete, a service with a port tracks instances again.
  ghost predicate Revived(s: Service) {
    && Exclusive(s) && s.deleting > 0 && s.reg.runners != [] && Born(s.reg.runners, s.reg.born)
    && s.reg.proc.Some? && s.reg.proc.value.spec.port > 0
    && (s.tasks != [] ==> s.tasks[0].at <= |s.tasks[0].plan|)
  }

  lemma ReloadedInside(s: Service) returns (ss: seq<Service>, es: seq<Event>)
    requires Revived(s) && s.tasks == []
    ensures AllHarmless(ss, es) && ss[0] == s && Wrong(ss[|es|])
  {
    hide AllHarmless, Wrong, SortBySlot, Launch;
    var plan := SortBySlot(s.reg.runners);
    var e := Reload(plan, [], true);
    SortSorts(s.reg.runners);
    SameElements(plan, s.reg.runners);
    var n := Next(s, e);
    assert plan != [];
    forall i | 0 <= i < |plan| ensures plan[i].id < n.reg.born { assert plan[i] in Elements(plan); }
    ss, es := DeletesEnd(n);
    Prepend(s, e, ss, es);
    ss, es := [s] + ss, [e] + es;
  }

  function ToDo(t: Task): nat {
    2 * |t.drains| + |t.dying| + if t.phase.AtSlot? then 2 else if t.phase.Probing? then 1 else 0
  }

  // The reload in flight is brought to its end, aborting if it is not over, and
  // a new one begins.
  lemma {:induction false} RolledOut(s: Service) returns (ss: seq<Service>, es: seq<Event>)
    requires Revived(s)
    ensures AllHarmless(ss, es) && ss[0] == s && Wrong(ss[|es|])
    decreases |s.tasks|, if s.tasks == [] then 0 else ToDo(s.tasks[0])
  {
    hide AllHarmless, Wrong, Revived, Next, Enabled, Harmless, ToDo;
    if s.tasks == [] {
      ss, es := ReloadedInside(s);
    } else {
      var e := RollsOut(s);
      var n := Next(s, e);
      ss, es := RolledOut(n);
      Prepend(s, e, ss, es);
      ss, es := [s] + ss, [e] + es;
    }
  }

  lemma RollsOut(s: Service) returns (e: Event)
    requires Revived(s) && s.tasks != []
    ensures Enabled(s, e) && Harmless(s, e) && Revived(Next(s, e)) && |s.tasks| == 1
    ensures Next(s, e).tasks == [] || (|Next(s, e).tasks| == 1 && ToDo(Next(s, e).tasks[0]) < ToDo(s.tasks[0]))
  {
    hide Next, ToDo, SetState, Lookup, Without;
    e := NextToDo(s.tasks[0]);
    StepMovesTask(s, e);
    StepRevived(s, e);
    if !e.Finish? { ToDoFalls(s.tasks[0], Next(s, e).tasks[0], e); }
  }

  lemma NextToDo(t: Task) returns (e: Event)
    ensures match e
            case DrainStop(k, r) => k == 0 && r in t.drains
            case DrainRemove(k, r) => k == 0 && r in t.dying
            case Abort(k) => k == 0 && t.phase.Probing?
            case Spawn(k, found) => k == 0 && t.phase.AtSlot? && t.at < |t.plan|
            case Finish(k) => k == 0 && LoopOver(t) && t.drains == {} && t.dying == {}
            case _ => false
  {
    if t.drains != {} {
      var r :| r in t.drains;
      e := DrainStop(0, r);
    } else if t.dying != {} {
      var r :| r in t.dying;
      e := DrainRemove(0, r);
    } else if t.phase.Probing? {
      e := Abort(0);
    } else if LoopOver(t) {
      e := Finish(0);
    } else {
      e := Spawn(0, "");
    }
  }

  lemma ToDoFalls(t: Task, u: Task, e: Event)
    requires TaskMoves(t, u, e) && !e.Promote?
    ensures ToDo(u) < ToDo(t)
  {
    if e.DrainStop? { AddedSize(t.dying, e.r); }
  }

  lemma StepRevived(s: Service, e: Event)
    requires Revived(s) && Enabled(s, e)
    requires e.DrainStop? || e.DrainRemove? || e.Abort? || e.Spawn? || e.Finish?
    ensures Revived(Next(s, e))
  {
    hide Lookup, Upsert, Without, NextRunner;
  }

  // A delete while the reload has slots left: its next promotion revives the
  // service inside the delete.
  lemma {:induction false} DeletedDuringReload(s: Service) returns (ss: seq<Service>, es: seq<Event>)
    requires Exclusive(s) && s.deleting > 0 && Born(s.reg.runners, s.reg.born)
    requires s.reg.proc.Some? && s.reg.proc.value.spec.port > 0 && !Over(s) && InPlan(s.tasks[0], s.reg.born)
    ensures AllHarmless(ss, es) && ss[0] == s && Wrong(ss[|es|])
    decreases if s.tasks[0].phase.AtSlot? then 1 else 0
  {
    hide AllHarmless, Wrong, PromoteReg, SetState, Replace;
    var t := s.tasks[0];
    var e := if t.phase.Probing? then Promote(0, true) else Spawn(0, "");
    var n := Next(s, e);
    if t.phase.Probing? {
      var prev, nr := t.plan[t.at], t.phase.nr;
      PromoteSpec(s.reg, t.spec, prev, nr, true);
      ReplaceNonempty(s.reg.runners, prev, nr);
      ReplaceAdds(s.reg.runners, prev, nr);
      forall r | r in n.reg.runners ensures r.id < n.reg.born { assert r in Elements(s.reg.runners) + {nr}; }
      ss, es := RolledOut(n);
    } else {
      CreateKeepsFront(s.reg, t.spec, t.plan[t.at].slot, "");
      ss, es := DeletedDuringReload(n);
    }
    Prepend(s, e, ss, es);
    ss, es := [s] + ss, [e] + es;
  }

  // After any step that is not safe for the front proxy there is a run, even of
  // harmless steps, to a state in which the front proxy is wrong.
  lemma UnsafeGoesWrong(s: Service, e: Event) returns (ss: seq<Service>, es: seq<Event>)
    requires FrontInv(s) && Enabled(s, e) && !FrontSafe(s, e) && SpecFor(s, e).port >= 0
    ensures AllHarmless(ss, es) && ss[0] == Next(s, e) && Wrong(ss[|es|])
  {
    hide AllHarmless, Wrong, Launch, AnyRunning, IsSortOf, Upstreams;
    var n := Next(s, e);
    if e.DeleteBegin? {
      ss, es := DeletedDuringReload(n);
    } else {
      var spec := SpecFor(s, e);
      LaunchedReg(s, e, spec);
      LaunchTidy(s.reg, spec, e.addrs, e.up);
      LaunchSpec(s.reg, spec, e.addrs, e.up);
      ss, es := RolledOut(n);
    }
  }

  // The discipline is exact: from a state in which the front proxy is in order,
  // a step is safe if and only if no run of safe steps after it ever makes a
  // live front proxy publish anything but the tracked instances. (Ports are not
  // negative.)
  lemma FrontIsExact(s: Service, e: Event)
    requires FrontInv(s) && Enabled(s, e) && ((s.reg.proc.Some? || e.Start?) ==> SpecFor(s, e).port >= 0)
    ensures FrontSafe(s, e) <==>
              forall ss, es :: AllFrontSafe(ss, es) && ss[0] == Next(s, e) ==> FrontRight(ss[|es|])
  {
    hide AllFrontSafe, AllHarmless, FrontInv, FrontRight, Next, Enabled, FrontSafe;
    if FrontSafe(s, e) {
      StepFront(s, e);
      forall ss, es | AllFrontSafe(ss, es) && ss[0] == Next(s, e) ensures FrontRight(ss[|es|]) {
        FrontInvForever(ss, es, |es|);
        InvIsRight(ss[|es|]);
      }
    } else {
      SafeUnlessRegistered(s, e);
      var ss, es := UnsafeGoesWrong(s, e);
      AllHarmlessIsFrontSafe(ss, es);
    }
  }

  lemma InvIsRight(s: Service)
    requires FrontInv(s)
    ensures FrontRight(s)
  {
    hide Upstreams;
  }

  lemma SafeUnlessRegistered(s: Service, e: Event)
    requires !FrontSafe(s, e)
    ensures s.reg.proc.Some? || e.Start?
  {
    hide AnyRunning;
  }

  // The same for the guards that slots and count need: a delete, or a launch
  // inside a delete, of a service with a port is harmless if and only if no run
  // of harmless steps after it gets the front proxy wrong.
  lemma HarmlessForFront(s: Service, e: Event)
    requires FrontInv(s) && Enabled(s, e) && (s.reg.proc.Some? || e.Start?) && SpecFor(s, e).port > 0
    requires e.DeleteBegin? || (Launches(s, e) && s.deleting > 0)
    ensures Harmless(s, e) <==>
              forall ss, es :: AllHarmless(ss, es) && ss[0] == Next(s, e) ==> FrontRight(ss[|es|])
  {
    hide AllFrontSafe, AllHarmless, FrontInv, FrontRight, Next, Enabled, AnyRunning;
    if FrontSafe(s, e) {
      StepFront(s, e);
      forall ss, es | AllHarmless(ss, es) && ss[0] == Next(s, e) ensures FrontRight(ss[|es|]) {
        AllHarmlessIsFrontSafe(ss, es);
        FrontInvForever(ss, es, |es|);
        InvIsRight(ss[|es|]);
      }
    } else {
      var ss, es := UnsafeGoesWrong(s, e);
    }
  }

  // A run in which no launch finds a front proxy of another mode, and the front
  // proxy goes wrong all the same: a delete during a reload, the name registered
  // again as not proxied, a promotion of the old reload, which opens a front
  // proxy, and a scale, which does not update it.
  lemma CrossedRun() returns (ss: seq<Service>, es: seq<Event>)
    ensures IsRun(ss, es) && |es| == 8 && Init(ss[0])
    ensures forall i :: 0 <= i < 8 ==> FreshAddrs(ss[i], es[i]) && (Orderly(ss[i], es[i]) <==> i != 3)
    ensures es[0].Start? && es[5].Start? && ss[0].reg.front.None? && ss[5].reg.front.None?
    ensures ss[8].reg.front == Some(["c", "b"]) && Upstreams(ss[8].reg.runners) == ["c", "b", "d"]
  {
    hide Next, Enabled, OrderlyRun, IsRun, Orderly, FreshAddrs, Upstreams;
    var c := Runner(2, 0, 0, "c");
    var e3, e4, e5, e6, e7 := DeleteBegin, DeleteEnd, Start(SHARED, true, ["c"], true), Promote(0, true), Scale(3, [c, WARMING], ["", "", "d"], true);
    var tt, fs := ProbingRun();
    var s4, s5 := ForgetWaiting();
    StartUnknown(s5, SHARED, "c");
    var s6 := Next(s5, e5);
    var s7 := PromoteForgotten(s6, c);
    var s8 := ScaleForgotten(s7, c);
    var r0 := tt[0];
    Extended(tt, fs, r0, WAITING, e3);
    Extended(tt + [s4], fs + [e3], r0, s4, e4);
    Extended(tt + [s4] + [s5], fs + [e3] + [e4], r0, s5, e5);
    Extended(tt + [s4] + [s5] + [s6], fs + [e3] + [e4] + [e5], r0, s6, e6);
    Extended(tt + [s4] + [s5] + [s6] + [s7], fs + [e3] + [e4] + [e5] + [e6], r0, s7, e7);
    ss := tt + [s4] + [s5] + [s6] + [s7] + [s8];
    es := fs + [e3] + [e4] + [e5] + [e6] + [e7];
    CrossedHypotheses(s4, s5, s6, s7, c);
    PrefixOrderly(tt, fs);
    forall i | 0 <= i < 8 ensures FreshAddrs(ss[i], es[i]) && (Orderly(ss[i], es[i]) <==> i != 3) {
      if i < 3 { assert ss[i] == tt[i] && es[i] == fs[i]; }
    }
  }

  lemma PrefixOrderly(ss: seq<Service>, es: seq<Event>)
    requires OrderlyRun(ss, es)
    ensures |ss| == |es| + 1 && forall i :: 0 <= i < |es| ==> Orderly(ss[i], es[i]) && FreshAddrs(ss[i], es[i])
  {
    hide Orderly, FreshAddrs, Next, Enabled;
  }

  lemma ForgetWaiting() returns (s: Service, n: Service)
    ensures Enabled(WAITING, DeleteBegin) && s == Next(WAITING, DeleteBegin)
    ensures Enabled(s, DeleteEnd) && n == Next(s, DeleteEnd)
    ensures n == WAITING.(reg := Reg(None, [], 0, 2, None, true)) && s.deleting == 1
  {
    s := Next(WAITING, DeleteBegin);
    n := Next(s, DeleteEnd);
  }

  lemma PromoteForgotten(s: Service, c: Runner) returns (n: Service)
    requires c == Runner(2, 0, 0, "c") && s.tasks == WAITING.tasks && s.ready == {}
    requires s.reg == Reg(Some(Process(SHARED, [StartingState(c)])), [c], 1, 3, None, true)
    ensures Enabled(s, Promote(0, true)) && n == Next(s, Promote(0, true))
    ensures n.reg.runners == [c, WARMING] && n.reg.front == Some(["c", "b"]) && n.deleting == s.deleting
    ensures n.reg.nextIdx == 1 && n.reg.proc.Some? && n.reg.proc.value.spec == SHARED
    ensures |n.tasks| == 1 && InFlight(n.tasks[0]) == {OLD}
  {
    hide MarkDraining, Upstreams;
    n := Next(s, Promote(0, true));
    PromoteSpec(s.reg, PROXIED, OLD, WARMING, true);
    assert Replace([c], OLD, WARMING) == [c, WARMING];
    UpstreamsOfTwo(c, WARMING);
    assert {} + {OLD} == {OLD};
  }

  lemma UpstreamsOfTwo(a: Runner, b: Runner)
    requires a.addr != "" && b.addr != ""
    ensures Upstreams([a, b]) == [a.addr, b.addr]
  {
    hide Upstreams;
    assert [a, b] == [a] + [b];
    Published(a);
    UpstreamsSnoc([a], b);
  }

  lemma ScaleForgotten(s: Service, c: Runner) returns (n: Service)
    requires c == Runner(2, 0, 0, "c")
    requires s.reg.runners == [c, WARMING] && s.reg.front == Some(["c", "b"]) && s.reg.nextIdx == 1
    requires s.reg.proc.Some? && s.reg.proc.value.spec == SHARED
    ensures var e := Scale(3, [c, WARMING], ["", "", "d"], true);
            && Enabled(s, e) && n == Next(s, e)
            && n.reg.front == Some(["c", "b"]) && Upstreams(n.reg.runners) == ["c", "b", "d"]
  {
    hide SetState, Upstreams;
    var addrs := ["", "", "d"];
    n := Next(s, Scale(3, [c, WARMING], addrs, true));
    var d := NextRunner(s.reg, SHARED, 2, "d");
    assert Grow(s.reg, SHARED, 2, 3, addrs) == AddInstance(s.reg, SHARED, 2, "d") by { GrowOnce(s.reg, SHARED, 2, addrs); }
    assert n.reg.runners == [c, WARMING] + [d];
    UpstreamsOfTwo(c, WARMING);
    UpstreamsSnoc([c, WARMING], d);
  }

  lemma GrowOnce(g: Reg, spec: Spec, from: nat, addrs: seq<string>)
    ensures Grow(g, spec, from, from + 1, addrs) == AddInstance(g, spec, from, Found(addrs, from))
  {
  }

  lemma CrossedHypotheses(s4: Service, s5: Service, s6: Service, s7: Service, c: Runner)
    requires s4.deleting == 1 && s5.deleting == s6.deleting == s7.deleting == 0
    requires s7.reg.runners == [c, WARMING] && |s7.tasks| == 1 && InFlight(s7.tasks[0]) == {OLD} && c.addr == "c"
    ensures !Orderly(WAITING, DeleteBegin) && FreshAddrs(WAITING, DeleteBegin)
    ensures Orderly(s4, DeleteEnd) && FreshAddrs(s4, DeleteEnd)
    ensures var e := Start(SHARED, true, ["c"], true); Orderly(s5, e) && FreshAddrs(s5, e)
    ensures var e := Promote(0, true); Orderly(s6, e) && FreshAddrs(s6, e)
    ensures var e := Scale(3, [c, WARMING], ["", "", "d"], true); Orderly(s7, e) && FreshAddrs(s7, e)
  {
    hide InFlight;
    assert forall r :: r in Live(s7) ==> r.addr != "d";
  }

  // ---- a stopped service ----

  // The step opens a front proxy where there is none.
  ghost predicate Opens(s: Service, e: Event)
    requires Enabled(s, e)
  {
    match e
    case Promote(k, up) => up && s.tasks[k].spec.Fronted()
    case Scale(target, _, _, up) => up && ScaleAccepted(s.reg, target) && s.reg.proc.value.spec.Fronted()
    case Start(_, _, _, up) => up && Launches(s, e) && SpecFor(s, e).Fronted()
    case Restart(_, up) => up && Launches(s, e) && SpecFor(s, e).Fronted()
    case Reload(_, _, up) => up && Launches(s, e) && SpecFor(s, e).Fronted()
    case _ => false
  }

  lemma StepOpens(s: Service, e: Event)
    requires Enabled(s, e) && s.reg.front.None?
    ensures Next(s, e).reg.front.Some? <==> Opens(s, e)
  {
    hide Launch, ScaleReg, IsSortOf, AnyRunning, Upstreams, Replace, Lookup, Upsert, Without, Live;
    if Launches(s, e) {
      LaunchedReg(s, e, SpecFor(s, e));
      LaunchSpec(s.reg, SpecFor(s, e), e.addrs, e.up);
    } else if e.Scale? {
      ScaleOpens(s.reg, e.target, e.sorted, e.addrs, e.up);
    }
  }

  // Once stop has closed the front proxy, it stays closed if and only if no step
  // opens it: no launch or accepted scale of the proxied service, and no
  // promotion of a reload that was in flight or begins later.
  lemma {:induction false} StaysClosedExactly(ss: seq<Service>, es: seq<Event>, a: nat, b: nat)
    requires IsRun(ss, es) && a <= b < |ss| && ss[a].reg.front.None?
    ensures (forall m :: a <= m <= b ==> ss[m].reg.front.None?) <==>
              forall m :: a <= m < b ==> Enabled(ss[m], es[m]) && !Opens(ss[m], es[m])
    decreases b - a
  {
    hide Next, Enabled, Opens;
    if a < b {
      StaysClosedExactly(ss, es, a, b - 1);
      assert Enabled(ss[b - 1], es[b - 1]);
      if ss[b - 1].reg.front.None? { StepOpens(ss[b - 1], es[b - 1]); }
      assert (forall m :: a <= m <= b ==> ss[m].reg.front.None?) <==>
               (forall m :: a <= m <= b - 1 ==> ss[m].reg.front.None?) && ss[b].reg.front.None?;
      assert (forall m :: a <= m < b ==> Enabled(ss[m], es[m]) && !Opens(ss[m], es[m])) <==>
               (forall m :: a <= m < b - 1 ==> Enabled(ss[m], es[m]) && !Opens(ss[m], es[m])) && !Opens(ss[b - 1], es[b - 1]);
    }
  }

  // A stop that falls into a reload: the next promotion opens the front proxy
  // again, on the running replacement.
  lemma StopUndoneRun() returns (ss: seq<Service>, es: seq<Event>)
    ensures OrderlyRun(ss, es) && Init(ss[0]) && |es| == 5 && es[3].StopFront? && es[4].Promote?
    ensures ss[4].reg.front.None? && ss[5].reg.front == Some([WARMING.addr]) && ss[5].reg.runners == [WARMING]
  {
    hide Next, Enabled, OrderlyRun, IsRun, Orderly, FreshAddrs, Upstreams;
    var tt, fs := ProbingRun();
    var s4, s5 := StopThenPromote();
    PrefixOrderly(tt, fs);
    OrderlyIsRun(tt, fs);
    Extended(tt, fs, tt[0], WAITING, StopFront);
    Extended(tt + [s4], fs + [StopFront], tt[0], s4, Promote(0, true));
    ss, es := tt + [s4] + [s5], fs + [StopFront] + [Promote(0, true)];
    forall i | 0 <= i < 5 ensures Orderly(ss[i], es[i]) && FreshAddrs(ss[i], es[i]) {
      if i < 3 { assert ss[i] == tt[i] && es[i] == fs[i]; } else { AlwaysOrderly(ss[i]); }
    }
    RunIsOrderly(ss, es);
  }

  lemma AlwaysOrderly(s: Service)
    ensures Orderly(s, StopFront) && FreshAddrs(s, StopFront)
    ensures Orderly(s, Promote(0, true)) && FreshAddrs(s, Promote(0, true))
  {
  }

  lemma OrderlyIsRun(ss: seq<Service>, es: seq<Event>)
    requires OrderlyRun(ss, es)
    ensures IsRun(ss, es)
  {
    hide IsRun, Orderly, FreshAddrs;
  }

  lemma RunIsOrderly(ss: seq<Service>, es: seq<Event>)
    requires IsRun(ss, es) && |ss| == |es| + 1
    requires forall i :: 0 <= i < |es| ==> Orderly(ss[i], es[i]) && FreshAddrs(ss[i], es[i])
    ensures OrderlyRun(ss, es)
  {
    hide IsRun, Orderly, FreshAddrs;
  }

  lemma StopThenPromote() returns (s: Service, n: Service)
    ensures Enabled(WAITING, StopFront) && s == Next(WAITING, StopFront) && s.reg.front.None?
    ensures Enabled(s, Promote(0, true)) && n == Next(s, Promote(0, true))
    ensures n.reg.front == Some([WARMING.addr]) && n.reg.runners == [WARMING]
  {
    hide MarkDraining, Upstreams;
    s := Next(WAITING, StopFront);
    n := Next(s, Promote(0, true));
    Published(WARMING);
    assert Replace([OLD], OLD, WARMING) == [WARMING];
  }

  // ---- drained instances ----

  // In every state of a run of harmless steps, whatever addresses are given
  // out, a live front proxy publishes the address of an instance handed to a
  // drain if and only if some tracked instance has been given it too; the
  // drained instance itself is not tracked.
  lemma LeavingPublishedExactly(ss: seq<Service>, es: seq<Event>, i: nat, r: Runner)
    requires AllHarmless(ss, es) && Init(ss[0]) && i < |ss| && ss[i].reg.front.Some?
    requires r in Leaving(ss[i]) && r.addr != ""
    ensures r !in ss[i].reg.runners
    ensures r.addr in ss[i].reg.front.value <==> exists q :: q in ss[i].reg.runners && q.addr == r.addr
  {
    hide AllHarmless, AllFrontSafe, Init, Upstreams, Tidy, FrontOk;
    AllHarmlessIsFrontSafe(ss, es);
    FrontForever(ss, es, i);
    UntoldForever(ss, es, i);
    PublishedAddrs(ss[i].reg.runners, r.addr);
  }
}
