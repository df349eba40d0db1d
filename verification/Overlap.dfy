// What happens to slots, count and addresses when the hypotheses of an orderly
// run are dropped: what becomes of a reload that another command falls into, of
// a start after a stop, and of an address given out twice; with runs in which a
// promise is broken. The exact guards are in Discipline and Front.
module Overlap {
  import opened Basics
  import opened InstanceList
  import opened Registry
  import opened Protocol
  import opened Invariants
  import opened ReloadResults
  import opened AnyRun
  import opened Discipline

  // ---- promoting an instance whose predecessor is no longer tracked ----

  // A promotion keeps the slots a permutation and the length unchanged exactly
  // when the instance it replaces is still tracked. (Otherwise the replacement
  // is appended.)
  lemma PromoteExactly(s: Service, up: bool)
    requires Enabled(s, Promote(0, up)) && SlotsOk(s.reg.runners)
    requires s.tasks[0].plan[s.tasks[0].at].slot == s.tasks[0].phase.nr.slot
    ensures var rs, qs, prev := s.reg.runners, Next(s, Promote(0, up)).reg.runners, s.tasks[0].plan[s.tasks[0].at];
            SlotsOk(qs) && |qs| == |rs| <==> prev in rs
  {
    hide SlotsOk, MarkDraining;
    var rs, t := s.reg.runners, s.tasks[0];
    var prev, nr := t.plan[t.at], t.phase.nr;
    assert Next(s, Promote(0, up)).reg.runners == Replace(rs, prev, nr);
    if prev in rs {
      SwapOk(rs, prev, nr);
    } else {
      ReplaceUntracked(rs, prev, nr);
    }
  }

  // ---- a restart or scale while a reload has slots left ----

  // A reload, at slot `from` or later, whose snapshot is still tracked below
  // slot `limit` only.
  ghost predicate Disturbed(s: Service, from: nat, limit: int) {
    && Exclusive(s) && s.tasks != [] && s.deleting == 0
    && PlanTidy(s.tasks[0], s.reg.born) && from <= s.tasks[0].at
    && TrackedBelow(s.tasks[0], s.reg.runners, limit)
    && s.reg.proc.Some? && |s.reg.runners| >= s.reg.proc.value.spec.Count()
    && (s.tasks[0].at == from || s.tasks[0].at <= limit ==> CountKept(s.reg))
  }

  ghost predicate TrackedBelow(t: Task, rs: seq<Runner>, limit: int) {
    forall i :: t.at <= i < |t.plan| ==> (t.plan[i] in rs <==> i < limit)
  }

  // How many slots of the snapshot the step leaves alone.
  function LeftAlone(e: Event): int {
    if e.Scale? then e.target else 0
  }

  lemma Disturbs(s: Service, e: Event)
    requires Tidy(s) && !Over(s) && Enabled(s, e) && (e.Restart? || (e.Scale? && ScaleAccepted(s.reg, e.target)))
    ensures Disturbed(Next(s, e), s.tasks[0].at, LeftAlone(e)) && Next(s, e).tasks == s.tasks
  {
    hide SlotsOk, Launch, ScaleReg, IsSortOf, AnyRunning;
    PlanWithin(s);
    assert s.tasks[0].plan[s.tasks[0].at] in s.reg.runners;
    if e.Restart? {
      LaunchTidy(s.reg, s.reg.proc.value.spec, e.addrs, e.up);
    } else if e.target > |s.reg.runners| {
      ScaledUpTidy(s.reg, e.target, e.sorted, e.addrs, e.up);
      PrefixTracked(s.reg.runners, Next(s, e).reg.runners);
    } else {
      ScaledDownTidy(s.reg, e.target, e.sorted, e.addrs, e.up);
    }
  }

  lemma DisturbedPromotes(s: Service, e: Event, from: nat, limit: int)
    requires Disturbed(s, from, limit) && Enabled(s, e) && e.Promote?
    ensures Disturbed(Next(s, e), from, limit)
    ensures CountKept(Next(s, e).reg) <==> s.tasks[0].at < limit
    ensures Next(s, e).tasks[0].at == s.tasks[0].at + 1
  {
    hide PromoteReg, Replace, SlotsOk;
    var t, rs := s.tasks[0], s.reg.runners;
    var prev, nr := t.plan[t.at], t.phase.nr;
    PromoteSpec(s.reg, t.spec, prev, nr, e.up);
    if prev in rs {
      SwapOk(rs, prev, nr);
    } else {
      ReplaceUntracked(rs, prev, nr);
    }
    var qs := Replace(rs, prev, nr);
    assert Elements(qs) == Elements(rs) - {prev} + {nr};
    forall i | t.at < i < |t.plan| ensures t.plan[i] in qs <==> t.plan[i] in rs {
      assert t.plan[i] != prev && t.plan[i] != nr;
      assert t.plan[i] in Elements(qs) <==> t.plan[i] in Elements(rs);
    }
  }

  lemma DisturbedScales(s: Service, e: Event, from: nat, limit: int)
    requires Disturbed(s, from, limit) && Enabled(s, e) && Orderly(s, e) && e.Scale? && ScaleAccepted(s.reg, e.target)
    ensures Disturbed(Next(s, e), from, limit) && Next(s, e).tasks == s.tasks
  {
    hide Grow, Upstreams, SlotsOk, IsSortOf;
    var g, spec := s.reg, s.reg.proc.value.spec;
    GrowKeepsFlags(g, spec, |g.runners|, e.target, e.addrs);
    GrowAdds(g, spec, |g.runners|, e.target, e.addrs);
    var h := Grow(g, spec, |g.runners|, e.target, e.addrs);
    assert forall k :: 0 <= k < |g.runners| ==> h.runners[k] == g.runners[k];
    if CountKept(g) { SlotsExtend(g.runners, h.runners); }
    PrefixTracked(g.runners, h.runners);
  }

  lemma DisturbedGoesOn(s: Service, e: Event, from: nat, limit: int)
    requires Disturbed(s, from, limit) && Enabled(s, e) && Orderly(s, e) && !e.Finish? && !e.Promote?
    requires !(e.Scale? && ScaleAccepted(s.reg, e.target))
    ensures Disturbed(Next(s, e), from, limit)
  {
    hide Launch, IsSortOf, SlotsOk, Lookup, Upsert, Without, Live;
    if e.Start? || e.Reload? { DisturbedTracks(s, from, limit); }
  }

  lemma DisturbedTracks(s: Service, from: nat, limit: int)
    requires Disturbed(s, from, limit)
    ensures s.reg.runners != [] && s.reg.reloading
  {
    hide SlotsOk;
  }

  // All steps but the one at a are orderly.
  ghost predicate OrderlyBut(ss: seq<Service>, es: seq<Event>, a: nat) {
    IsRun(ss, es) && forall i :: 0 <= i < |es| && i != a ==> Orderly(ss[i], es[i])
  }

  lemma {:induction false} TidyBefore(ss: seq<Service>, es: seq<Event>, a: nat, i: nat)
    requires OrderlyBut(ss, es, a) && Init(ss[0]) && i <= a < |es|
    ensures Tidy(ss[i])
  {
    hide Next, Enabled, Harmless, Orderly;
    if i > 0 {
      TidyBefore(ss, es, a, i - 1);
      OrderlyIsHarmless(ss[i - 1], es[i - 1]);
      StepTidy(ss[i - 1], es[i - 1]);
    } else {
      InitTidy(ss[0]);
    }
  }

  lemma InitTidy(s: Service)
    requires Init(s)
    ensures Tidy(s)
  {
  }

  lemma {:induction false} DisturbedUntil(ss: seq<Service>, es: seq<Event>, a: nat, j: nat)
    requires OrderlyBut(ss, es, a) && Init(ss[0]) && a < j < |ss| && NoFinish(es, a, j) && !Over(ss[a])
    requires es[a].Restart? || (es[a].Scale? && ScaleAccepted(ss[a].reg, es[a].target))
    ensures ss[a].tasks != [] && Disturbed(ss[j], ss[a].tasks[0].at, LeftAlone(es[a]))
  {
    hide Next, Enabled, Orderly, Disturbed, Tidy;
    if j == a + 1 {
      TidyBefore(ss, es, a, a);
      Disturbs(ss[a], es[a]);
    } else {
      DisturbedUntil(ss, es, a, j - 1);
      var s, e := ss[j - 1], es[j - 1];
      var from, limit := ss[a].tasks[0].at, LeftAlone(es[a]);
      if e.Promote? {
        DisturbedPromotes(s, e, from, limit);
      } else if e.Scale? && ScaleAccepted(s.reg, e.target) {
        DisturbedScales(s, e, from, limit);
      } else {
        DisturbedGoesOn(s, e, from, limit);
      }
    }
  }

  // A run that is orderly but for one restart or accepted scale while a reload
  // has slots left. Until that reload finishes, slots and count are right as
  // long as it has promoted nothing since, or only slots that the scale left
  // alone; and each of its promotions leaves them right if and only if it was a
  // scale and the promoted slot is below the target.
  lemma OverlapExactly(ss: seq<Service>, es: seq<Event>, a: nat, j: nat)
    requires OrderlyBut(ss, es, a) && Init(ss[0]) && a < j < |es| && NoFinish(es, a, j) && !Over(ss[a])
    requires es[a].Restart? || (es[a].Scale? && ScaleAccepted(ss[a].reg, es[a].target))
    ensures |ss[a].tasks| == |ss[j].tasks| == 1
    ensures var at := ss[j].tasks[0].at;
            && (at == ss[a].tasks[0].at || (es[a].Scale? && at <= es[a].target) ==> CountKept(ss[j].reg))
            && (es[j].Promote? ==> (CountKept(ss[j + 1].reg) <==> es[a].Scale? && at < es[a].target))
  {
    hide Next, Enabled, Orderly, SlotsOk;
    DisturbedUntil(ss, es, a, j);
    ReloadIsExclusive(ss, es, a);
    assert Enabled(ss[j], es[j]);
    if es[j].Promote? { DisturbedPromotes(ss[j], es[j], ss[a].tasks[0].at, LeftAlone(es[a])); }
  }

  // ---- a delete while a reload has slots left ----

  // A delete that falls there: the promotion makes the deleted service track
  // an instance again, and it still does when the delete has finished.
  lemma DeleteDuringReload(s: Service, up: bool)
    requires Tidy(s) && s.tasks != [] && s.tasks[0].phase.Probing?
    ensures Enabled(Next(s, DeleteBegin), Promote(0, up))
    ensures var m := Next(Next(s, DeleteBegin), Promote(0, up));
            && Enabled(m, DeleteEnd)
            && Next(m, DeleteEnd).reg.runners == [s.tasks[0].phase.nr] && Next(m, DeleteEnd).reg.proc.None?
  {
    hide SlotsOk, MarkDraining, Upstreams;
    assert s.tasks[0].plan[s.tasks[0].at] in s.reg.runners;
  }

  // ---- start ----

  // start launches instances exactly when the binary is runnable, nothing is
  // tracked, and no leftover entry of a registered service shows as up.
  lemma StartExactly(s: Service, e: Event)
    requires Good(s) && e.Start?
    ensures Next(s, e).reg.runners != s.reg.runners <==>
              e.runnable && s.reg.runners == [] &&
              (s.reg.proc.Some? ==> forall st :: st in s.reg.proc.value.states ==> st.status != Running && st.status != Starting)
  {
    hide Good, Launch, Grow;
    if s.reg.runners != [] { ActiveParts(s); }
    var spec := if s.reg.proc.Some? then s.reg.proc.value.spec else e.request;
    LaunchCount(s.reg, spec, e.addrs, e.up);
  }

  lemma LaunchCount(g: Reg, spec: Spec, addrs: seq<string>, up: bool)
    ensures |Launch(g, spec, addrs, up).runners| == spec.Count()
  {
    GrowAdds(g.(proc := Some(Process(spec, [])), runners := []), spec, 0, spec.Count(), addrs);
  }

  // A registered service with tracked instances, and no delete in between.
  ghost predicate Launched(s: Service) {
    s.reg.runners != [] && s.reg.proc.Some? && s.deleting == 0
  }

  // stop leaves the stopped instances tracked, so once a service has been
  // launched every start of it is refused until it is deleted.
  lemma StartRefusedUntilDelete(ss: seq<Service>, es: seq<Event>, a: nat, b: nat)
    requires IsRun(ss, es) && a <= b < |es| && Launched(ss[a])
    requires forall i :: a <= i < b ==> !es[i].DeleteBegin?
    requires es[b].Start?
    ensures ss[b + 1] == ss[b]
  {
    hide Enabled, StartReg;
    TrackedUntilDelete(ss, es, a, b);
    StartWhileTracked(ss[b].reg, es[b].request, es[b].runnable, es[b].addrs, es[b].up);
  }

  lemma StartWhileTracked(g: Reg, request: Spec, runnable: bool, addrs: seq<string>, up: bool)
    requires g.runners != [] && g.proc.Some?
    ensures StartReg(g, request, runnable, addrs, up) == g
  {
  }

  lemma {:induction false} TrackedUntilDelete(ss: seq<Service>, es: seq<Event>, a: nat, b: nat)
    requires IsRun(ss, es) && a <= b < |ss| && Launched(ss[a])
    requires forall i :: a <= i < b ==> !es[i].DeleteBegin?
    ensures Launched(ss[b])
  {
    hide Enabled, Next, Launched;
    if a < b {
      TrackedUntilDelete(ss, es, a, b - 1);
      StaysTracked(ss[b - 1], es[b - 1]);
    }
  }

  lemma StaysTracked(s: Service, e: Event)
    requires Launched(s) && Enabled(s, e) && !e.DeleteBegin?
    ensures Launched(Next(s, e))
  {
    hide StartReg, RestartReg, ScaleReg, ReloadReg, PromoteReg, IsSortOf, Upsert, Lookup, Without, Live;
    if e.Start? { StartWhileTracked(s.reg, e.request, e.runnable, e.addrs, e.up); }
    if e.Restart? { RestartTracks(s.reg, e.addrs, e.up); }
    if e.Scale? { ScaleTracks(s.reg, e.target, e.sorted, e.addrs, e.up); }
    if e.Reload? { ReloadTracks(s.reg, e.addrs, e.up); }
    if e.Promote? {
      PromoteTracks(s.reg, s.tasks[e.k].spec, s.tasks[e.k].plan[s.tasks[e.k].at], s.tasks[e.k].phase.nr, e.up);
    }
  }

  lemma RestartTracks(g: Reg, addrs: seq<string>, up: bool)
    requires g.proc.Some?
    ensures RestartReg(g, addrs, up).runners != [] && RestartReg(g, addrs, up).proc.Some?
  {
    hide Launch;
    LaunchTidy(g, g.proc.value.spec, addrs, up);
  }

  lemma ScaleTracks(g: Reg, target: int, sorted: seq<Runner>, addrs: seq<string>, up: bool)
    requires g.runners != [] && g.proc.Some? && |sorted| == |g.runners|
    ensures var h := ScaleReg(g, target, sorted, addrs, up); h.runners != [] && h.proc.Some?
  {
    hide Grow, RemoveStates, Upstreams;
    if ScaleAccepted(g, target) {
      if target > |g.runners| {
        GrowAdds(g, g.proc.value.spec, |g.runners|, target, addrs);
        GrowKeepsFlags(g, g.proc.value.spec, |g.runners|, target, addrs);
      } else {
        SpecAfterRemovals(g.proc, sorted[target..]);
      }
    }
  }

  lemma ReloadTracks(g: Reg, addrs: seq<string>, up: bool)
    requires g.runners != []
    ensures ReloadReg(g, addrs, up).runners == g.runners && ReloadReg(g, addrs, up).proc.Some? == g.proc.Some?
  {
    hide Launch;
  }

  lemma PromoteTracks(g: Reg, spec: Spec, prev: Runner, nw: Runner, up: bool)
    ensures var h := PromoteReg(g, spec, prev, nw, up); h.runners != [] && h.proc.Some? == g.proc.Some?
  {
  }

  // ---- a front proxy left behind by a service registered under another mode ----

  // Launching keeps the front proxy in agreement exactly when there is none or
  // the launched spec is a proxied one.
  lemma LaunchFrontExactly(g: Reg, spec: Spec, addrs: seq<string>, up: bool)
    ensures FrontOk(Launch(g, spec, addrs, up)) <==> g.front.None? || spec.Fronted()
  {
    var c := g.(proc := Some(Process(spec, [])), runners := []);
    hide Grow;
    GrowKeepsFlags(c, spec, 0, spec.Count(), addrs);
  }

  lemma LaunchOne(g: Reg, spec: Spec, addr: string, up: bool)
    requires spec.Count() == 1 && spec.port > 0
    ensures var r := Runner(g.born, g.nextIdx, 0, addr);
            Launch(g, spec, [addr], up) ==
              Sync(Reg(Some(Process(spec, [StartingState(r)])), [r], g.nextIdx + 1, g.born + 1, g.front, g.reloading), spec, up)
  {
    var c := g.(proc := Some(Process(spec, [])), runners := []);
    var d := AddInstance(c, spec, 0, addr);
    var r := Runner(g.born, g.nextIdx, 0, addr);
    assert Found([addr], 0) == addr && NextRunner(c, spec, 0, addr) == r && [] + [r] == [r];
    assert d == Reg(Some(Process(spec, [StartingState(r)])), [r], g.nextIdx + 1, g.born + 1, g.front, g.reloading);
    assert Grow(c, spec, 0, 1, [addr]) == Grow(d, spec, 1, 1, [addr]) == d;
  }

  // Registering an unknown service of one instance.
  lemma StartUnknown(s: Service, spec: Spec, addr: string)
    requires s.reg.proc.None? && spec.Count() == 1 && spec.port > 0
    ensures var e, r := Start(spec, true, [addr], true), Runner(s.reg.born, s.reg.nextIdx, 0, addr);
            && Enabled(s, e)
            && Next(s, e) == s.(reg := Sync(Reg(Some(Process(spec, [StartingState(r)])), [r], s.reg.nextIdx + 1,
                                                s.reg.born + 1, s.reg.front, s.reg.reloading), spec, true))
  {
    hide Launch, Sync;
    LaunchOne(s.reg, spec, addr, true);
  }

  lemma RunOfFive(ss: seq<Service>, es: seq<Event>)
    requires |ss| == 6 && |es| == 5
    requires Enabled(ss[0], es[0]) && ss[1] == Next(ss[0], es[0])
    requires Enabled(ss[1], es[1]) && ss[2] == Next(ss[1], es[1])
    requires Enabled(ss[2], es[2]) && ss[3] == Next(ss[2], es[2])
    requires Enabled(ss[3], es[3]) && ss[4] == Next(ss[3], es[3])
    requires Enabled(ss[4], es[4]) && ss[5] == Next(ss[4], es[4])
    ensures IsRun(ss, es)
  {
    hide Enabled, Next;
  }

  const PROXIED := Spec(1, 8080, Proxy)
  const SHARED := Spec(1, 8080, Reuseport)
  const NOTHING := Service(UNKNOWN, [], 0, {}, {})

  // A reload that lands between the two sections of a delete starts the service
  // again, with a front proxy that the delete then forgets; registering the name
  // anew in the other mode leaves that proxy pointing at an address of no
  // tracked instance.
  lemma StaleFrontRun() returns (ss: seq<Service>, es: seq<Event>)
    ensures IsRun(ss, es) && Init(ss[0]) && |es| == 5
    ensures forall i :: 0 <= i < |es| ==> FreshAddrs(ss[i], es[i]) && (Orderly(ss[i], es[i]) <==> i != 2)
    ensures ss[5].reg.front == Some(["b"]) && Upstreams(ss[5].reg.runners) == ["c"]
  {
    var a, b, c := Runner(0, 0, 0, "a"), Runner(1, 0, 0, "b"), Runner(2, 1, 0, "c");
    var p := Some(Process(PROXIED, [StartingState(a)]));
    var q := Some(Process(PROXIED, [StartingState(b)]));
    var s0 := NOTHING;
    var s1 := s0.(reg := Reg(p, [a], 1, 1, Some(["a"]), false));
    var s2 := s1.(reg := Reg(p, [], 0, 1, None, false), deleting := 1);
    var s3 := s2.(reg := Reg(q, [b], 1, 2, Some(["b"]), false));
    var s4 := s3.(reg := Reg(None, [b], 1, 2, Some(["b"]), false), deleting := 0);
    var s5 := s4.(reg := Reg(Some(Process(SHARED, [StartingState(c)])), [c], 2, 3, Some(["b"]), false));
    es := [Start(PROXIED, true, ["a"], true), DeleteBegin, Reload([], ["b"], true), DeleteEnd, Start(SHARED, true, ["c"], true)];
    ss := [s0, s1, s2, s3, s4, s5];
    hide Orderly, FreshAddrs, Next, Enabled, Upstreams, IsRun;
    Published(a);
    Published(b);
    Published(c);
    StartUnknown(s0, PROXIED, "a");
    DeleteSteps(s1, s3);
    StartInsideDelete(s2, b);
    StartUnknown(s4, SHARED, "c");
    RunOfFive(ss, es);
    StaleFrontHypotheses(ss, es);
  }

  lemma DeleteSteps(s: Service, n: Service)
    requires s.reg.proc.Some? && n.deleting == 1
    ensures Enabled(s, DeleteBegin)
    ensures Next(s, DeleteBegin) ==
              s.(reg := s.reg.(runners := [], nextIdx := 0, front := None), deleting := s.deleting + 1)
    ensures Enabled(n, DeleteEnd) && Next(n, DeleteEnd) == n.(reg := n.reg.(proc := None), deleting := 0)
  {
  }

  lemma StartInsideDelete(s: Service, b: Runner)
    requires s.reg.proc.Some? && s.reg.proc.value.spec == PROXIED && !s.reg.reloading && s.reg.runners == [] && s.reg.front == None
    requires b == Runner(s.reg.born, s.reg.nextIdx, 0, "b")
    ensures Enabled(s, Reload([], ["b"], true))
    ensures Next(s, Reload([], ["b"], true)) ==
              s.(reg := Reg(Some(Process(PROXIED, [StartingState(b)])), [b], s.reg.nextIdx + 1, s.reg.born + 1, Some(["b"]), false))
  {
    hide Launch, Upstreams;
    LaunchOne(s.reg, PROXIED, "b", true);
    Published(b);
  }

  lemma Published(r: Runner)
    requires r.addr != ""
    ensures Upstreams([r]) == [r.addr]
  {
    assert [r][1..] == [];
  }

  lemma StaleFrontHypotheses(ss: seq<Service>, es: seq<Event>)
    requires |ss| == 6 && ss[0].deleting == 0 && ss[1].deleting == 0 && ss[1].tasks == [] && ss[2].deleting == 1 && ss[4].deleting == 0
    requires es == [Start(PROXIED, true, ["a"], true), DeleteBegin, Reload([], ["b"], true), DeleteEnd, Start(SHARED, true, ["c"], true)]
    ensures forall i :: 0 <= i < |es| ==> FreshAddrs(ss[i], es[i]) && (Orderly(ss[i], es[i]) <==> i != 2)
  {
  }

  const OLD := Runner(0, 0, 0, "a")
  const WARMING := Runner(1, 1, 0, "b")
  const RESTARTED := Runner(2, 2, 0, "c")
  const ROLL := Task(PROXIED, [OLD], 0, AtSlot, {}, {}, 1)

  // The reload of a one-instance service, waiting for its replacement.
  function WaitingFor(nr: Runner): Service {
    Service(Reg(Some(Process(PROXIED, [StartingState(OLD), StartingState(nr)])), [OLD], 2, 2, Some(["a"]), true),
            [ROLL.(phase := Probing(nr))], 0, {}, {})
  }

  const WAITING := WaitingFor(WARMING)

  // An orderly run in which a reload waits for the probe of its first slot; the
  // address search may answer for the replacement as it likes.
  lemma ProbingRunAt(found: string) returns (ss: seq<Service>, es: seq<Event>)
    ensures |ss| == 4 && |es| == 3 && IsRun(ss, es) && Init(ss[0]) && ss[3] == WaitingFor(Runner(1, 1, 0, found))
    ensures es == [Start(PROXIED, true, ["a"], true), Reload([OLD], [], true), Spawn(0, found)] && Live(ss[2]) == {OLD}
    ensures forall i :: 0 <= i < 3 ==> Orderly(ss[i], es[i]) && (FreshAddrs(ss[i], es[i]) <==> i < 2 || found != "a")
  {
    var s0 := NOTHING;
    var s1 := s0.(reg := Reg(Some(Process(PROXIED, [StartingState(OLD)])), [OLD], 1, 1, Some(["a"]), false));
    var s2 := s1.(reg := s1.reg.(reloading := true), tasks := [ROLL]);
    es := [Start(PROXIED, true, ["a"], true), Reload([OLD], [], true), Spawn(0, found)];
    ss := [s0, s1, s2, WaitingFor(Runner(1, 1, 0, found))];
    hide Next, Enabled, Live, Upstreams;
    StartUnknown(s0, PROXIED, "a");
    Published(OLD);
    ReloadOne(s1, OLD);
    OnlyLive(s2, OLD);
    SpawnSecond(s2, ROLL, OLD, Runner(1, 1, 0, found));
  }

  lemma ProbingRun() returns (ss: seq<Service>, es: seq<Event>)
    ensures |ss| == 4 && |es| == 3 && IsRun(ss, es) && OrderlyRun(ss, es) && Init(ss[0]) && ss[3] == WAITING
    ensures es == [Start(PROXIED, true, ["a"], true), Reload([OLD], [], true), Spawn(0, "b")]
  {
    hide Next, Enabled, Live, Orderly, FreshAddrs;
    ss, es := ProbingRunAt("b");
  }

  // A restart during that reload: once the replacement is promoted, the service
  // tracks two instances, both for slot 0.
  lemma RestartDuringReloadRun() returns (ss: seq<Service>, es: seq<Event>)
    ensures IsRun(ss, es) && |ss| == 6 && |es| == 5 && Init(ss[0]) && es[3].Restart? && es[4].Promote?
    ensures OrderlyRun(ss[..4], es[..3]) && FreshAddrs(ss[3], es[3]) && !Orderly(ss[3], es[3])
    ensures |ss[5].reg.runners| == 2 && forall r :: r in ss[5].reg.runners ==> r.slot == 0
    ensures !SlotsOk(ss[5].reg.runners) && Broken(ss[5]) && !Harmless(ss[3], es[3])
  {
    hide Next, Enabled, OrderlyRun, IsRun, Init, SlotsOk;
    var tt, fs := ProbingRun();
    RestartOne(WAITING, RESTARTED);
    var e3, e4 := Restart(["c"], true), Promote(0, true);
    var s4 := Next(WAITING, e3);
    Extended(tt, fs, tt[0], WAITING, e3);
    PromoteUntracked(s4, WAITING.tasks[0], OLD, WARMING, RESTARTED);
    var s5 := Next(s4, e4);
    Extended(tt + [s4], fs + [e3], tt[0], s4, e4);
    TwiceSlotZero(s5.reg.runners);
    ss, es := tt + [s4] + [s5], fs + [e3] + [e4];
    assert ss[..4] == tt && es[..3] == fs;
  }

  lemma OnlyLive(s: Service, a: Runner)
    requires s.reg.runners == [a] && |s.tasks| == 1 && InFlight(s.tasks[0]) == {}
    ensures Live(s) == {a}
  {
  }

  lemma TwiceSlotZero(rs: seq<Runner>)
    requires |rs| == 2 && rs[0].slot == rs[1].slot == 0
    ensures !SlotsOk(rs) && forall r :: r in rs ==> r.slot == 0
  {
  }

  lemma ReloadOne(s: Service, a: Runner)
    requires ReloadBegins(s.reg) && s.reg.runners == [a] && s.tasks == []
    ensures Enabled(s, Reload([a], [], true))
    ensures Next(s, Reload([a], [], true)) ==
              s.(reg := s.reg.(reloading := true), tasks := [Task(s.reg.proc.value.spec, [a], 0, AtSlot, {}, {}, s.reg.born)])
  {
  }

  lemma RestartOne(s: Service, c: Runner)
    requires s.reg.proc.Some? && s.reg.proc.value.spec == PROXIED && c == Runner(s.reg.born, s.reg.nextIdx, 0, "c")
    ensures Enabled(s, Restart(["c"], true))
    ensures Next(s, Restart(["c"], true)) ==
              s.(reg := s.reg.(proc := Some(Process(PROXIED, [StartingState(c)])), runners := [c],
                               nextIdx := s.reg.nextIdx + 1, born := s.reg.born + 1, front := Some(["c"])))
  {
    hide Launch, Upstreams;
    LaunchOne(s.reg, PROXIED, "c", true);
    Published(c);
  }

  lemma SpawnSecond(s: Service, t: Task, a: Runner, b: Runner)
    requires s.tasks == [t] && t == Task(PROXIED, [a], 0, AtSlot, {}, {}, 1) && a.slot == 0
    requires s.reg == Reg(Some(Process(PROXIED, [StartingState(a)])), [a], 1, 1, s.reg.front, true)
    requires a.index == 0 && b == Runner(1, 1, 0, b.addr)
    ensures Enabled(s, Spawn(0, b.addr))
    ensures Next(s, Spawn(0, b.addr)) ==
              s.(reg := Reg(Some(Process(PROXIED, [StartingState(a), StartingState(b)])), [a], 2, 2, s.reg.front, true),
                 tasks := [t.(phase := Probing(b))])
  {
    assert NextRunner(s.reg, PROXIED, 0, b.addr) == b;
    assert Upsert([StartingState(a)], StartingState(b)) == [StartingState(a), StartingState(b)];
  }

  lemma PromoteUntracked(s: Service, u: Task, a: Runner, b: Runner, c: Runner)
    requires s.tasks == [u] && u == Task(PROXIED, [a], 0, Probing(b), {}, {}, 1) && s.ready == {}
    requires s.reg == Reg(Some(Process(PROXIED, [StartingState(c)])), [c], 3, 3, Some(["c"]), true)
    requires b.addr == "b" && c.addr == "c" && a != c && a.index != c.index
    ensures Enabled(s, Promote(0, true))
    ensures Next(s, Promote(0, true)) ==
              s.(reg := s.reg.(runners := [c, b], front := Some(["c", "b"])), tasks := [u.(phase := AtSlot, at := 1, drains := {a})], ready := {b})
  {
    assert Replace([c], a, b) == [c, b];
    Published(b);
    assert [c, b][1..] == [b];
    assert Upstreams([c, b]) == ["c"] + Upstreams([b]) == ["c", "b"];
    assert Lookup([StartingState(c)], a.index) == None;
    assert {} + {a} == {a} && {} + {b} == {b};
  }

  // ---- an address that is given to two instances ----

  // A promotion takes the address of the replaced instance out of the published
  // set if and only if neither the replacement nor another tracked instance has
  // been given the same one.
  lemma UnpublishedExactly(s: Service, up: bool)
    requires Tidy(s) && Enabled(s, Promote(0, up)) && s.tasks[0].spec.Fronted()
    requires s.reg.front.Some? && s.tasks[0].plan[s.tasks[0].at].addr != ""
    ensures var prev, nr, front := s.tasks[0].plan[s.tasks[0].at], s.tasks[0].phase.nr, Next(s, Promote(0, up)).reg.front;
            front.Some? &&
            (prev.addr !in front.value <==>
               nr.addr != prev.addr && forall q :: q in s.reg.runners && q != prev ==> q.addr != prev.addr)
  {
    hide SlotsOk, MarkDraining, Replace, Upstreams;
    var rs, prev, nr := s.reg.runners, s.tasks[0].plan[s.tasks[0].at], s.tasks[0].phase.nr;
    var qs := Replace(rs, prev, nr);
    SwapOk(rs, prev, nr);
    PublishedAddrs(qs, prev.addr);
    assert forall q :: q in qs <==> q in Elements(rs) - {prev} + {nr};
  }

  // If the search hands the address of the old instance to its replacement, the
  // reload drains an instance whose address it keeps publishing.
  lemma SharedAddressRun() returns (ss: seq<Service>, es: seq<Event>)
    ensures IsRun(ss, es) && |es| == 4 && Init(ss[0])
    ensures forall i :: 0 <= i < 4 ==> Orderly(ss[i], es[i]) && (FreshAddrs(ss[i], es[i]) <==> i != 2)
    ensures |ss[4].tasks| == 1 && OLD in ss[4].tasks[0].drains && ss[4].reg.front == Some([OLD.addr])
  {
    hide Next, Enabled, Live, Orderly, FreshAddrs, IsRun;
    var tt, fs := ProbingRunAt("a");
    var nr, e := Runner(1, 1, 0, "a"), Promote(0, true);
    PromoteOnly(WaitingFor(nr), OLD, nr);
    Extended(tt, fs, tt[0], tt[3], e);
    ss, es := tt + [Next(tt[3], e)], fs + [e];
    assert Orderly(ss[3], e) && FreshAddrs(ss[3], e) by { PromoteIsOrderly(ss[3]); }
  }

  lemma PromoteIsOrderly(s: Service)
    ensures Orderly(s, Promote(0, true)) && FreshAddrs(s, Promote(0, true))
  {
  }

  lemma PromoteOnly(s: Service, a: Runner, b: Runner)
    requires |s.tasks| == 1 && s.tasks[0] == ROLL.(phase := Probing(b)) && s.reg.runners == [a] && a == OLD
    requires s.reg.front.Some? && b.addr != ""
    ensures Enabled(s, Promote(0, true))
    ensures var n := Next(s, Promote(0, true)); |n.tasks| == 1 && a in n.tasks[0].drains && n.reg.front == Some([b.addr])
  {
    hide MarkDraining, Upstreams;
    Published(b);
    assert Replace([a], a, b) == [b];
  }
}
