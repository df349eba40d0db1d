// What the protocol guarantees over whole runs: reload safety, the outcome of a
// finished and of an aborted reload, capacity, termination, index freshness.
module ReloadResults {
  import opened Basics
  import opened InstanceList
  import opened Registry
  import opened Protocol
  import opened Invariants
  import opened AnyRun
  import Text

  // The runners that a reload has replaced and whose drain is unfinished.
  function Leaving(s: Service): set<Runner> {
    if s.tasks == [] then {} else s.tasks[0].drains + s.tasks[0].dying
  }

  // ---- safety ----

  // In every state of an orderly run the tracked instances fill the configured
  // count, and each slot has one that no reload has told to stop.
  lemma EverySlotServed(ss: seq<Service>, es: seq<Event>, i: nat, slot: nat) returns (r: Runner)
    requires OrderlyRun(ss, es) && Init(ss[0]) && i < |ss| && slot < |ss[i].reg.runners|
    ensures r in ss[i].reg.runners && r.slot == slot && r !in ss[i].told
    ensures ss[i].reg.proc.Some? && |ss[i].reg.runners| == ss[i].reg.proc.value.spec.Count()
    ensures SlotsOk(ss[i].reg.runners)
  {
    GoodForever(ss, es, i);
    ActiveParts(ss[i]);
    r := SlotHolder(ss[i].reg.runners, slot);
  }

  lemma ActiveParts(s: Service)
    requires Good(s) && s.reg.runners != []
    ensures s.reg.proc.Some? && SlotsOk(s.reg.runners)
    ensures |s.reg.runners| == s.reg.proc.value.spec.Count()
    ensures FrontOk(s.reg)
    ensures forall r :: r in s.reg.runners ==> r !in s.told
    ensures s.tasks != [] ==> TaskOk(s.tasks[0], s.reg, s.told, s.ready)
    ensures StatesMatch(s.reg.proc.value.states, Live(s), Leaving(s))
    ensures FreshRunners(Live(s), s.reg.nextIdx, s.reg.born)
  {
    hide FreshRunners, StatesMatch, SlotsOk, FrontOk, TaskOk;
  }

  // When a drain sends Stop to an instance, a replacement for the same slot has
  // passed its probe, is tracked, and has not been told to stop.
  lemma ReplacedBeforeStopped(ss: seq<Service>, es: seq<Event>, i: nat) returns (q: Runner)
    requires OrderlyRun(ss, es) && Init(ss[0]) && i < |es| && es[i].DrainStop?
    ensures q in ss[i].reg.runners && q.slot == es[i].r.slot && q.id > es[i].r.id
    ensures q in ss[i].ready && q !in ss[i].told
    ensures es[i].r !in ss[i].reg.runners
  {
    hide Good, FreshRunners, StatesMatch, SlotsOk, TaskOk, FrontOk, Next;
    GoodForever(ss, es, i);
    var s, r := ss[i], es[i].r;
    assert Enabled(s, es[i]);
    ReloadIsExclusive(ss, es, i);
    assert s.tasks != [] && r in s.tasks[0].drains;
    TaskParts(s);
    ActiveParts(s);
    q := DrainedHasHeir(s.tasks[0], s.reg, s.told, s.ready, r);
  }

  lemma DrainedHasHeir(t: Task, g: Reg, told: set<Runner>, ready: set<Runner>, r: Runner) returns (q: Runner)
    requires g.proc.Some? && TaskOk(t, g, told, ready) && SlotsOk(g.runners) && r in t.drains + t.dying
    ensures q in g.runners && q.slot == r.slot && q.id > r.id && q in ready && r !in g.runners
  {
    hide SlotsOk;
    assert Replaced(t.plan, t.at, r);
    q := SlotHolder(g.runners, r.slot);
  }

  // The history behind it: an instance waiting for its drain was swapped out by
  // an earlier promotion, in the run, of a replacement for its slot.
  lemma {:induction false} DrainWasPromoted(ss: seq<Service>, es: seq<Event>, i: nat, r: Runner) returns (j: nat)
    requires OrderlyRun(ss, es) && Init(ss[0]) && i < |ss|
    requires ss[i].tasks != [] && r in ss[i].tasks[0].drains
    ensures j < i && es[j].Promote? && Enabled(ss[j], es[j])
    ensures es[j].k == 0 && ss[j].tasks[0].plan[ss[j].tasks[0].at] == r
  {
    ReloadIsExclusive(ss, es, i);
    assert i > 0;
    var s, e := ss[i - 1], es[i - 1];
    ReloadIsExclusive(ss, es, i - 1);
    assert Enabled(s, e) && ss[i] == Next(s, e);
    if s.tasks != [] && r in s.tasks[0].drains {
      j := DrainWasPromoted(ss, es, i - 1, r);
    } else {
      DrainEntersByPromote(s, e, r);
      j := i - 1;
    }
  }

  lemma DrainEntersByPromote(s: Service, e: Event, r: Runner)
    requires Exclusive(s) && Enabled(s, e)
    requires Next(s, e).tasks != [] && r in Next(s, e).tasks[0].drains
    requires s.tasks == [] || r !in s.tasks[0].drains
    ensures e.Promote? && e.k == 0 && s.tasks[0].plan[s.tasks[0].at] == r
  {
    hide StartReg, RestartReg, ReloadReg, ScaleReg, PromoteReg, WriteStatus, IsSortOf;
  }

  // ---- an aborted replacement ----

  // A failed probe leaves the tracked runners and the front proxy as they were
  // and removes the failed instance from the store; what remains of it is its
  // consumed index.
  lemma AbortLeavesNoTrace(ss: seq<Service>, es: seq<Event>, i: nat)
    requires OrderlyRun(ss, es) && Init(ss[0]) && i < |es| && es[i].Abort?
    ensures es[i].k == 0 && ss[i].tasks[0].phase.Probing?
    ensures var s, n, nr := ss[i], ss[i + 1], ss[i].tasks[0].phase.nr;
            && n.reg.runners == s.reg.runners && n.reg.front == s.reg.front
            && nr !in s.reg.runners && nr !in Live(n)
            && n.reg.proc.Some? && nr.index !in Keys(n.reg.proc.value.states)
            && Keys(n.reg.proc.value.states) == Indices(Live(n))
            && nr.index < n.reg.nextIdx == s.reg.nextIdx
  {
    GoodForever(ss, es, i);
    GoodForever(ss, es, i + 1);
    ReloadIsExclusive(ss, es, i);
    AbortTrace(ss[i], es[i]);
  }

  lemma AbortTrace(s: Service, e: Event)
    requires Good(s) && Exclusive(s) && e.Abort? && Enabled(s, e) && Good(Next(s, e))
    ensures e.k == 0 && s.tasks[0].phase.Probing?
    ensures var n, nr := Next(s, e), s.tasks[0].phase.nr;
            && n.reg.runners == s.reg.runners && n.reg.front == s.reg.front
            && nr !in s.reg.runners && nr !in Live(n)
            && n.reg.proc.Some? && nr.index !in Keys(n.reg.proc.value.states)
            && Keys(n.reg.proc.value.states) == Indices(Live(n))
            && nr.index < n.reg.nextIdx == s.reg.nextIdx
  {
    hide Settled, TaskOk, Good, History, FreshRunners, UniqueKeys, EntryOf;
    var n, nr := Next(s, e), s.tasks[0].phase.nr;
    TaskParts(s);
    InFlightApart(s.reg, s.tasks[0], s.told, s.ready);
    ActiveParts(s);
    ActiveParts(n);
    assert nr in Live(s);
    IndexBound(Live(s), s.reg.nextIdx, s.reg.born, nr);
    KeysWithout(s.reg.proc.value.states, nr.index);
  }

  lemma TaskParts(s: Service)
    requires Good(s) && s.tasks != []
    ensures s.reg.runners != [] && Rolling(s.reg, s.tasks[0], s.told, s.ready)
  {
    hide Rolling, Settled, History;
  }

  lemma ProbingBelow(s: Service)
    requires Good(s) && s.tasks != [] && s.tasks[0].phase.Probing?
    ensures s.tasks[0].at < |s.tasks[0].plan| && s.tasks[0].plan[s.tasks[0].at] in s.reg.runners
  {
    hide Good, History;
    TaskParts(s);
    GoodHistory(s);
    NextReplaced(s.reg, s.tasks[0], s.told, s.ready);
  }

  lemma IndexBound(live: set<Runner>, nextIdx: nat, born: nat, r: Runner)
    requires FreshRunners(live, nextIdx, born) && r in live
    ensures r.index < nextIdx && r.id < born
  {
  }

  // ---- the outcome of a reload ----

  ghost predicate NoFinish(es: seq<Event>, i: nat, j: nat)
    requires j <= |es|
  {
    forall m :: i < m < j ==> !es[m].Finish?
  }

  // From its first step to its last, a reload works on the snapshot it took.
  lemma {:induction false} TaskPersists(ss: seq<Service>, es: seq<Event>, i: nat, j: nat)
    requires IsRun(ss, es) && Init(ss[0]) && i < j <= |es|
    requires es[i].Reload? && ReloadBegins(ss[i].reg) && NoFinish(es, i, j)
    ensures |ss[j].tasks| == 1 && ss[j].tasks[0].plan == es[i].plan && ss[j].tasks[0].birth == ss[i].reg.born
  {
    hide Next, Enabled;
    ReloadIsExclusive(ss, es, j);
    ReloadIsExclusive(ss, es, j - 1);
    if j > i + 1 {
      TaskPersists(ss, es, i, j - 1);
      PlanKept(ss[j - 1], es[j - 1]);
    } else {
      TaskBegins(ss[i], es[i]);
    }
  }

  lemma TaskBegins(s: Service, e: Event)
    requires Exclusive(s) && Enabled(s, e) && e.Reload? && ReloadBegins(s.reg)
    ensures var n := Next(s, e); n.tasks != [] && n.tasks[0].plan == e.plan && n.tasks[0].birth == s.reg.born
  {
    assert s.tasks == [];
  }

  lemma PlanKept(s: Service, e: Event)
    requires Exclusive(s) && Enabled(s, e) && s.tasks != [] && !e.Finish?
    ensures var n := Next(s, e);
            n.tasks != [] && n.tasks[0].plan == s.tasks[0].plan && n.tasks[0].birth == s.tasks[0].birth
    ensures s.tasks[0].phase.Aborted? ==>
              Next(s, e).tasks[0].phase.Aborted? && Next(s, e).tasks[0].at == s.tasks[0].at
  {
    hide StartReg, RestartReg, ReloadReg, ScaleReg, PromoteReg, WriteStatus, IsSortOf;
  }

  // After a failed probe the reload does not move on.
  lemma {:induction false} AbortFixesPosition(ss: seq<Service>, es: seq<Event>, i: nat, m: nat, j: nat)
    requires IsRun(ss, es) && Init(ss[0]) && i < m < j <= |es|
    requires es[i].Reload? && ReloadBegins(ss[i].reg) && NoFinish(es, i, j) && es[m].Abort?
    ensures |ss[j].tasks| == 1 && |ss[m].tasks| == 1
    ensures ss[j].tasks[0].phase.Aborted? && ss[j].tasks[0].at == ss[m].tasks[0].at
  {
    hide Next, Enabled;
    TaskPersists(ss, es, i, m);
    TaskPersists(ss, es, i, j);
    ReloadIsExclusive(ss, es, j - 1);
    if j > m + 1 {
      AbortFixesPosition(ss, es, i, m, j - 1);
      PlanKept(ss[j - 1], es[j - 1]);
    } else {
      AbortMarks(ss[m], es[m]);
    }
  }

  lemma AbortMarks(s: Service, e: Event)
    requires Exclusive(s) && Enabled(s, e) && e.Abort?
    ensures var n := Next(s, e); n.tasks != [] && n.tasks[0].phase.Aborted? && n.tasks[0].at == s.tasks[0].at
  {
  }

  // The first `at` slots of `plan` have been taken over by new instances that
  // passed their probe and their old instances have been told to stop; the
  // other slots of `plan` keep their old instances, which have not.
  ghost predicate TakenOver(n: Service, plan: seq<Runner>, at: nat, birth: nat) {
    && at <= |plan| <= |n.reg.runners| && SlotsOk(n.reg.runners)
    && (forall r :: r in n.reg.runners && r.slot < at ==> r.id >= birth && r in n.ready && r !in n.told)
    && (forall k :: 0 <= k < at ==> plan[k] in n.told && plan[k] !in n.reg.runners)
    && (forall k :: at <= k < |plan| ==> plan[k] in n.reg.runners && plan[k] !in n.told)
  }

  ghost predicate NothingDraining(l: seq<InstanceState>) {
    forall st :: st in l ==> st.status != Draining
  }

  // Every reload that finishes has taken over a prefix of its slots: all of
  // them, unless a probe failed. The store then lists exactly the tracked
  // instances, none of them as draining, and a new reload may begin.
  lemma ReloadOutcome(ss: seq<Service>, es: seq<Event>, i: nat, j: nat)
    requires OrderlyRun(ss, es) && Init(ss[0]) && i < j < |es|
    requires es[i].Reload? && ReloadBegins(ss[i].reg) && NoFinish(es, i, j) && es[j].Finish?
    ensures |ss[j].tasks| == 1
    ensures var n, t, plan := ss[j + 1], ss[j].tasks[0], es[i].plan;
            && Elements(plan) == Elements(ss[i].reg.runners) && |plan| == |ss[i].reg.runners|
            && (forall k :: 0 <= k < |plan| ==> plan[k].slot == k && plan[k].id < ss[i].reg.born)
            && TakenOver(n, plan, t.at, ss[i].reg.born)
            && (t.at < |plan| <==> t.phase.Aborted?)
            && n.tasks == [] && !n.reg.reloading && n.reg.proc.Some?
            && Keys(n.reg.proc.value.states) == Indices(Elements(n.reg.runners))
            && NothingDraining(n.reg.proc.value.states)
  {
    hide Good, StatesMatch, FreshRunners, FrontOk, IsSortOf, SlotsOk, Next, Enabled, TakenOver;
    hide NothingDraining, Rolling, TaskOk;
    TaskPersists(ss, es, i, j);
    GoodForever(ss, es, i);
    GoodForever(ss, es, j);
    GoodForever(ss, es, j + 1);
    ReloadIsExclusive(ss, es, i);
    ReloadIsExclusive(ss, es, j);
    BeginSorted(ss[i], es[i]);
    FinishEffect(ss[j], es[j]);
    ActiveParts(ss[i]);
    SortedSlots(es[i].plan, ss[i].reg.runners);
    TaskParts(ss[j]);
    ActiveParts(ss[j]);
    ActiveParts(ss[j + 1]);
    var t := ss[j].tasks[0];
    FinishedTakenOver(t, ss[j].reg, ss[j].told, ss[j].ready, ss[j + 1]);
    OnlyTrackedLive(ss[j + 1]);
    NoneDraining(ss[j + 1].reg.proc.value.states, Live(ss[j + 1]));
    PlanIds(t, ss[j].reg, ss[j].told, ss[j].ready);
  }

  lemma BeginSorted(s: Service, e: Event)
    requires Enabled(s, e) && e.Reload?
    ensures IsSortOf(e.plan, s.reg.runners)
  {
    hide IsSortOf;
  }

  lemma FinishEffect(s: Service, e: Event)
    requires Enabled(s, e) && Exclusive(s) && e.Finish?
    ensures |s.tasks| == 1 && LoopOver(s.tasks[0]) && s.tasks[0].drains == {} && s.tasks[0].dying == {}
    ensures Next(s, e) == s.(tasks := [], reg := s.reg.(reloading := false))
  {
    assert s.tasks[..0] + s.tasks[1..] == [];
  }

  lemma PlanIds(t: Task, g: Reg, told: set<Runner>, ready: set<Runner>)
    requires g.proc.Some? && TaskOk(t, g, told, ready)
    ensures forall k :: 0 <= k < |t.plan| ==> t.plan[k].id < t.birth
    ensures LoopOver(t) ==> (t.at < |t.plan| <==> t.phase.Aborted?)
  {
  }

  lemma OnlyTrackedLive(s: Service)
    requires s.tasks == []
    ensures Live(s) == Elements(s.reg.runners) && Leaving(s) == {}
  {
  }

  lemma NoneDraining(l: seq<InstanceState>, live: set<Runner>)
    requires StatesMatch(l, live, {})
    ensures NothingDraining(l) && Keys(l) == Indices(live)
  {
    forall st | st in l ensures st.status != Draining {
      assert st.index in Keys(l);
      var r :| r in live && r.index == st.index;
      assert EntryOf(l, r, {});
      UniqueLookup(l, st);
    }
  }

  lemma {:induction false} UniqueLookup(l: seq<InstanceState>, st: InstanceState)
    requires UniqueKeys(l) && st in l
    ensures Lookup(l, st.index) == Some(st)
  {
    if l[0].index != st.index {
      assert l == [l[0]] + l[1..];
      UniqueCons(l[0], l[1..]);
      UniqueLookup(l[1..], st);
    } else {
      var i :| 0 <= i < |l| && l[i] == st;
      assert i == 0;
    }
  }

  lemma FinishedTakenOver(t: Task, g: Reg, told: set<Runner>, ready: set<Runner>, n: Service)
    requires g.proc.Some? && TaskOk(t, g, told, ready) && t.drains == {} && t.dying == {}
    requires n.reg.runners == g.runners && n.told == told && n.ready == ready && SlotsOk(g.runners)
    requires forall r :: r in g.runners ==> r !in told
    ensures TakenOver(n, t.plan, t.at, t.birth)
  {
  }

  // ---- capacity ----

  lemma {:induction false} DistinctRunners(rs: seq<Runner>)
    requires forall i, j :: 0 <= i < j < |rs| ==> rs[i] != rs[j]
    ensures |Elements(rs)| == |rs|
  {
    if rs != [] {
      var n := |rs| - 1;
      DistinctRunners(rs[..n]);
      assert rs == rs[..n] + [rs[n]];
      assert rs[n] !in rs[..n];
      assert Elements(rs) == Elements(rs[..n]) + {rs[n]};
    }
  }

  // Tracked, warming and draining instances together number between n and 2n,
  // where n is the number of tracked ones.
  lemma Capacity(ss: seq<Service>, es: seq<Event>, i: nat)
    requires OrderlyRun(ss, es) && Init(ss[0]) && i < |ss|
    ensures var n := |ss[i].reg.runners|; n <= |Live(ss[i])| <= 2 * n
  {
    hide Good, Next, Enabled;
    var s := ss[i];
    GoodForever(ss, es, i);
    if s.reg.runners == [] {
      NothingLive(s);
    } else {
      GoodExclusive(s);
      ActiveParts(s);
      AtLeastTracked(s);
      if s.tasks != [] { InFlightBound(s.tasks[0], s.reg, s.told, s.ready); }
      UnionSize(Elements(s.reg.runners), TaskRunners(s.tasks));
    }
  }

  lemma GoodExclusive(s: Service)
    requires Good(s)
    ensures Exclusive(s)
  {
  }

  lemma NothingLive(s: Service)
    requires Good(s) && s.reg.runners == []
    ensures Live(s) == {}
  {
  }

  lemma AtLeastTracked(s: Service)
    requires SlotsOk(s.reg.runners)
    ensures |Elements(s.reg.runners)| == |s.reg.runners| <= |Live(s)|
  {
    DistinctRunners(s.reg.runners);
    SubsetSize(Elements(s.reg.runners), Live(s));
  }

  lemma UnionSize<T>(a: set<T>, b: set<T>)
    ensures |a + b| <= |a| + |b|
  {
    assert a + b == a + (b - a);
    SubsetSize(b - a, b);
  }

  lemma InFlightBound(t: Task, g: Reg, told: set<Runner>, ready: set<Runner>)
    requires g.proc.Some? && TaskOk(t, g, told, ready)
    ensures |InFlight(t)| <= |t.plan| <= |g.runners|
  {
    var probing := if t.phase.Probing? then {t.phase.nr} else {};
    UnionSize(probing + t.drains, t.dying);
    UnionSize(probing, t.drains);
  }

  // ---- termination ----

  // The steps a reload task may still take, its last one included.
  function Work(t: Task): int {
    (if t.phase.Aborted? then 0 else 4 * (|t.plan| - t.at) - (if t.phase.Probing? then 1 else 0))
    + 2 * |t.drains| + |t.dying| + 1
  }

  function TotalWork(s: Service): int {
    if s.tasks == [] then 0 else Work(s.tasks[0])
  }

  predicate ReloadStep(e: Event) {
    e.Spawn? || e.Abort? || e.Promote? || e.DrainStop? || e.DrainRemove? || e.Finish?
  }

  function ReloadSteps(es: seq<Event>): nat {
    if es == [] then 0
    else ReloadSteps(es[..|es| - 1]) + (if ReloadStep(es[|es| - 1]) then 1 else 0)
  }

  ghost predicate Bounded(s: Service) {
    s.tasks != [] ==> s.tasks[0].at <= |s.tasks[0].plan| &&
                      (s.tasks[0].phase.Probing? ==> s.tasks[0].at < |s.tasks[0].plan|)
  }

  lemma OthersKeepTasks(s: Service, e: Event)
    requires Enabled(s, e) && !ReloadStep(e) && (e.Reload? ==> !ReloadBegins(s.reg))
    ensures Next(s, e).tasks == s.tasks
  {
    hide StartReg, RestartReg, ReloadReg, ScaleReg, WriteStatus, IsSortOf;
  }

  // What a step of the reload does to its task.
  ghost predicate TaskMoves(t: Task, u: Task, e: Event) {
    match e
    case Spawn(_, _) => t.phase.AtSlot? && t.at < |t.plan| && u.phase.Probing? && u == t.(phase := u.phase)
    case Abort(_) => t.phase.Probing? && u == t.(phase := Aborted)
    case Promote(_, _) =>
      t.phase.Probing? && t.at < |t.plan| && u == t.(phase := AtSlot, at := t.at + 1, drains := t.drains + {t.plan[t.at]})
    case DrainStop(_, r) => r in t.drains && u == t.(drains := t.drains - {r}, dying := t.dying + {r})
    case DrainRemove(_, r) => r in t.dying && u == t.(dying := t.dying - {r})
    case _ => false
  }

  lemma StepMovesTask(s: Service, e: Event)
    requires Exclusive(s) && Enabled(s, e) && ReloadStep(e)
    ensures |s.tasks| == 1
    ensures if e.Finish? then Next(s, e).tasks == []
            else |Next(s, e).tasks| == 1 && TaskMoves(s.tasks[0], Next(s, e).tasks[0], e)
  {
    hide PromoteReg, WriteStatus, RemoveState, Create;
  }

  lemma PromoteWork(t: Task, u: Task)
    requires t.phase.Probing? && t.at < |t.plan| && u == t.(phase := AtSlot, at := t.at + 1, drains := t.drains + {t.plan[t.at]})
    ensures u.at <= |u.plan| && 0 < Work(u) < Work(t)
  {
    AddedSize(t.drains, t.plan[t.at]);
  }

  lemma DrainWork(t: Task, u: Task, r: Runner)
    requires t.at <= |t.plan| && (t.phase.Probing? ==> t.at < |t.plan|)
    requires (r in t.drains && u == t.(drains := t.drains - {r}, dying := t.dying + {r})) || (r in t.dying && u == t.(dying := t.dying - {r}))
    ensures 0 < Work(u) < Work(t)
  {
    AddedSize(t.dying, r);
    if r in t.drains { assert |t.drains - {r}| == |t.drains| - 1; }
    if r in t.dying { assert |t.dying - {r}| == |t.dying| - 1; }
  }

  lemma MoveWork(t: Task, u: Task, e: Event)
    requires TaskMoves(t, u, e) && t.at <= |t.plan| && (t.phase.Probing? ==> t.at < |t.plan|)
    ensures u.at <= |u.plan| && (u.phase.Probing? ==> u.at < |u.plan|)
    ensures 0 < Work(u) < Work(t)
  {
    match e {
      case Promote(_, _) => hide Work; PromoteWork(t, u);
      case DrainStop(_, r) => hide Work; DrainWork(t, u, r);
      case DrainRemove(_, r) => hide Work; DrainWork(t, u, r);
      case _ =>
    }
  }

  // No other command adds to the work of a running reload, and each of its own
  // steps takes some away.
  lemma StepWork(s: Service, e: Event)
    requires Exclusive(s) && Bounded(s) && Enabled(s, e) && (e.Reload? ==> !ReloadBegins(s.reg))
    ensures var n := Next(s, e);
            && Bounded(n) && 0 <= TotalWork(n)
            && (ReloadStep(e) ==> TotalWork(n) < TotalWork(s))
            && (!ReloadStep(e) ==> TotalWork(n) == TotalWork(s))
  {
    hide Next, Enabled, TaskMoves, Work, Exclusive;
    WorkPositive(s);
    if !ReloadStep(e) {
      OthersKeepTasks(s, e);
    } else {
      StepMovesTask(s, e);
      if !e.Finish? { MoveWork(s.tasks[0], Next(s, e).tasks[0], e); }
    }
  }

  lemma AddedSize<T>(a: set<T>, x: T)
    ensures |a| <= |a + {x}| <= |a| + 1 && (x !in a ==> |a + {x}| == |a| + 1)
  {
    if x in a { assert a + {x} == a; }
  }

  // However other commands interleave, a reload ends: from the state in which it
  // begins on n instances, at most 4n + 1 of its own steps are possible before
  // its flag is cleared.
  lemma {:induction false} ReloadTerminates(ss: seq<Service>, es: seq<Event>)
    requires IsRun(ss, es) && Exclusive(ss[0]) && Bounded(ss[0])
    requires forall i :: 0 <= i < |es| ==> es[i].Reload? ==> !ReloadBegins(ss[i].reg)
    ensures Exclusive(ss[|es|]) && Bounded(ss[|es|])
    ensures 0 <= TotalWork(ss[|es|]) <= TotalWork(ss[0]) - ReloadSteps(es)
    decreases |es|
  {
    if es == [] {
      WorkPositive(ss[0]);
    } else {
      hide Next, Enabled, Bounded;
      var n := |es| - 1;
      ReloadTerminates(ss[..n + 1], es[..n]);
      StepWork(ss[n], es[n]);
      StepKeepsExclusive(ss[n], es[n]);
    }
  }

  lemma WorkPositive(s: Service)
    requires Bounded(s)
    ensures TotalWork(s) >= 0
    ensures s.tasks != [] ==> TotalWork(s) >= 1
  {
  }

  lemma ReloadTerminatesAfterBegin(ss: seq<Service>, es: seq<Event>)
    requires IsRun(ss, es) && Exclusive(ss[0]) && |es| > 0
    requires es[0].Reload? && ReloadBegins(ss[0].reg)
    requires forall i :: 1 <= i < |es| ==> es[i].Reload? ==> !ReloadBegins(ss[i].reg)
    ensures ReloadSteps(es[1..]) <= 4 * |ss[0].reg.runners| + 1
    ensures ReloadSteps(es[1..]) == 4 * |ss[0].reg.runners| + 1 ==> !ss[|es|].reg.reloading
  {
    hide Next, Enabled;
    BeginWork(ss[0], es[0]);
    StepKeepsExclusive(ss[0], es[0]);
    ReloadTerminates(ss[1..], es[1..]);
    WorkPositive(ss[|es|]);
  }

  lemma BeginWork(s: Service, e: Event)
    requires Exclusive(s) && Enabled(s, e) && e.Reload? && ReloadBegins(s.reg)
    ensures TotalWork(Next(s, e)) == 4 * |s.reg.runners| + 1 && Bounded(Next(s, e))
  {
    assert s.tasks == [];
    assert |multiset(e.plan)| == |multiset(s.reg.runners)|;
  }

  // A reload in flight is never stuck: some step of it is possible.
  lemma ReloadCanStep(s: Service) returns (e: Event)
    requires Exclusive(s) && Bounded(s) && s.reg.reloading
    ensures ReloadStep(e) && Enabled(s, e) && Orderly(s, e) && FreshAddrs(s, e)
  {
    var t := s.tasks[0];
    if t.drains != {} {
      var r :| r in t.drains;
      e := DrainStop(0, r);
    } else if t.dying != {} {
      var r :| r in t.dying;
      e := DrainRemove(0, r);
    } else if t.phase.Probing? {
      e := Promote(0, true);
    } else if LoopOver(t) {
      e := Finish(0);
    } else {
      e := Spawn(0, "");
    }
  }

  // ---- index freshness ----

  // Tracked, warming and draining instances have different indices, all below
  // the next one to be handed out.
  lemma IndicesFresh(ss: seq<Service>, es: seq<Event>, i: nat, a: Runner, b: Runner)
    requires OrderlyRun(ss, es) && Init(ss[0]) && i < |ss|
    requires a in Live(ss[i]) && b in Live(ss[i]) && a != b
    ensures a.index != b.index && a.index < ss[i].reg.nextIdx && b.index < ss[i].reg.nextIdx
    ensures a.addr != "" ==> a.addr != b.addr
  {
    hide Good, Next, Enabled, StatesMatch, TaskOk;
    GoodForever(ss, es, i);
    if ss[i].reg.runners == [] { NothingLive(ss[i]); }
    ActiveParts(ss[i]);
    assert Apart(a, b);
  }

  // The instances whose log files a step removes: a failed replacement, a
  // drained instance, or those that a scale-down drops.
  ghost function Retired(s: Service, e: Event): set<Runner>
    requires Enabled(s, e)
  {
    match e
    case Abort(k) => {s.tasks[k].phase.nr}
    case DrainRemove(_, r) => {r}
    case Scale(target, sorted, _, _) =>
      if ScaleAccepted(s.reg, target) && target < |sorted| then Elements(sorted[target..]) else {}
    case _ => {}
  }

  // The log files that a step removes are not those of any instance that lives on.
  lemma RetiredLogs(ss: seq<Service>, es: seq<Event>, i: nat, name: string, q: Runner, retired: Runner)
    requires OrderlyRun(ss, es) && Init(ss[0]) && i < |es|
    requires retired in Retired(ss[i], es[i]) && q in Live(ss[i + 1])
    ensures Text.LogName(name, q.index, "out") != Text.LogName(name, retired.index, "out")
    ensures Text.LogName(name, q.index, "err") != Text.LogName(name, retired.index, "err")
  {
    hide Good, Text.LogName, Next, Enabled, Retired, Live;
    GoodForever(ss, es, i);
    GoodExclusive(ss[i]);
    assert Enabled(ss[i], es[i]) && Orderly(ss[i], es[i]);
    if es[i].Scale? {
      DroppedIsGone(ss[i], es[i], q, retired);
    } else {
      RetiredIsGone(ss[i], es[i], q, retired);
    }
    IndicesFresh(ss, es, i, q, retired);
    LogsApart(name, q.index, retired.index);
  }

  lemma LogsApart(name: string, a: nat, b: nat)
    requires a != b
    ensures Text.LogName(name, a, "out") != Text.LogName(name, b, "out")
    ensures Text.LogName(name, a, "err") != Text.LogName(name, b, "err")
  {
    hide Text.LogName;
    if Text.LogName(name, a, "out") == Text.LogName(name, b, "out") {
      Text.LogNamesInjective(name, a, name, b, "out");
    }
    if Text.LogName(name, a, "err") == Text.LogName(name, b, "err") {
      Text.LogNamesInjective(name, a, name, b, "err");
    }
  }

  // The same in any run between deletes, with no discipline at all, for every
  // other instance.
  lemma RetiredLogsAnyRun(ss: seq<Service>, es: seq<Event>, a: nat, i: nat, name: string, q: Runner, retired: Runner)
    requires IsRun(ss, es) && a <= i < |es| && Quiet(ss[a]) && forall j :: a <= j < i ==> !es[j].DeleteBegin?
    requires Enabled(ss[i], es[i]) && retired in Retired(ss[i], es[i]) && q in Live(ss[i + 1]) && q != retired
    ensures Text.LogName(name, q.index, "out") != Text.LogName(name, retired.index, "out")
    ensures Text.LogName(name, q.index, "err") != Text.LogName(name, retired.index, "err")
  {
    hide Text.LogName, Next, Enabled, Retired, Live, Known;
    RunNumbers(ss, es, a, i);
    RetiringAddsNothing(ss[i], es[i], retired);
    IndicesNeverShared(ss, es, a, i, q, retired);
    LogsApart(name, q.index, retired.index);
  }

  lemma RetiringAddsNothing(s: Service, e: Event, retired: Runner)
    requires Exclusive(s) && Enabled(s, e) && retired in Retired(s, e)
    ensures retired in Known(s) && Live(Next(s, e)) <= Known(s)
  {
    hide IsSortOf, RemoveStates, Upstreams, Without;
    if e.Scale? {
      SameElements(e.sorted, s.reg.runners);
      assert retired in Elements(e.sorted);
      forall r | r in e.sorted[..e.target] ensures r in s.reg.runners { assert r in Elements(e.sorted); }
    }
  }

  lemma RetiredIsGone(s: Service, e: Event, q: Runner, retired: Runner)
    requires Good(s) && Exclusive(s) && Enabled(s, e) && retired in Retired(s, e) && !e.Scale?
    requires q in Live(Next(s, e))
    ensures q in Live(s) && retired in Live(s) && q != retired
  {
    hide Good, Next, Enabled, Retired;
    hide InFlight, Rolling, TaskMoves;
    WhoRetires(s, e, retired);
    StepMovesTask(s, e);
    RetireKeepsTracked(s, e);
    TaskParts(s);
    InFlightApart(s.reg, s.tasks[0], s.told, s.ready);
    TaskRetires(s.tasks[0], Next(s, e).tasks[0], e, retired);
  }

  lemma TaskRetires(t: Task, u: Task, e: Event, retired: Runner)
    requires TaskMoves(t, u, e) && (e.DrainRemove? || e.Abort?)
    requires if e.Abort? then t.phase == Probing(retired) else retired == e.r
    requires (t.phase.Probing? ==> t.phase.nr !in t.drains + t.dying) && t.drains !! t.dying
    ensures retired in InFlight(t) && InFlight(u) == InFlight(t) - {retired}
  {
  }

  lemma WhoRetires(s: Service, e: Event, retired: Runner)
    requires Exclusive(s) && Enabled(s, e) && retired in Retired(s, e) && !e.Scale?
    ensures |s.tasks| == 1 && (e.DrainRemove? || e.Abort?)
    ensures if e.Abort? then s.tasks[0].phase == Probing(retired) else retired == e.r && retired in s.tasks[0].dying
  {
    hide IsSortOf, Live;
  }

  lemma DroppedIsGone(s: Service, e: Event, q: Runner, retired: Runner)
    requires Good(s) && Enabled(s, e) && Orderly(s, e) && retired in Retired(s, e) && e.Scale?
    requires q in Live(Next(s, e))
    ensures q in Live(s) && retired in Live(s) && q != retired
  {
    hide Good, IsSortOf, SlotsOk, RemoveStates, Upstreams;
    ActiveParts(s);
    SplitSorted(e.sorted, s.reg.runners, e.target);
    assert Next(s, e).reg.runners == e.sorted[..e.target];
  }

  lemma RetireKeepsTracked(s: Service, e: Event)
    requires Enabled(s, e) && (e.DrainRemove? || e.Abort?)
    ensures Next(s, e).reg.runners == s.reg.runners
  {
  }

  // ---- what the store shows ----

  // When the indices in the store are those of the live instances, a status
  // write leaves them so if and only if its own instance is one of them.
  // Otherwise it adds an entry for slot 0 without an address: so does a Stop
  // that returns only after the entry has been removed.
  lemma LateWriteExactly(proc: Option<Process>, live: set<Runner>, index: nat, status: Status)
    requires proc.Some? && Keys(proc.value.states) == Indices(live)
    ensures var after := WriteStatus(proc, index, status);
            && after.Some? && Keys(after.value.states) == Indices(live) + {index}
            && (Keys(after.value.states) == Indices(live) <==> exists r :: r in live && r.index == index)
            && (index !in Indices(live) ==> Lookup(after.value.states, index) == Some(InstanceState(index, 0, status, "")))
  {
    hide Lookup, Upsert, Keys;
    var l := proc.value.states;
    var found := Lookup(l, index);
    var st := if found.Some? then found.value.(status := status) else InstanceState(index, 0, status, "");
    KeysAreLookups(l, index);
    KeysUpsert(l, st);
    LookupUpsert(l, st, index);
  }

  // A promotion shows the replaced instance as draining, and only its entry
  // changes.
  lemma PromotedShowsDraining(ss: seq<Service>, es: seq<Event>, i: nat, q: Runner)
    requires OrderlyRun(ss, es) && Init(ss[0]) && i < |es| && es[i].Promote? && q in Live(ss[i])
    ensures |ss[i].tasks| == 1 && ss[i].tasks[0].at < |ss[i].tasks[0].plan|
    ensures ss[i].reg.proc.Some? && ss[i + 1].reg.proc.Some?
    ensures var before, after := ss[i].reg.proc.value.states, ss[i + 1].reg.proc.value.states;
            Lookup(before, q.index).Some? &&
            Lookup(after, q.index) ==
              if q == ss[i].tasks[0].plan[ss[i].tasks[0].at] then Some(Lookup(before, q.index).value.(status := Draining))
              else Lookup(before, q.index)
  {
    hide Good, Replace, Lookup, Upsert, TaskOk, SlotsOk;
    ReloadIsExclusive(ss, es, i);
    GoodForever(ss, es, i);
    assert Enabled(ss[i], es[i]) && ss[i + 1] == Next(ss[i], es[i]);
    var s := ss[i];
    TaskParts(s);
    ActiveParts(s);
    GoodHistory(s);
    NextReplaced(s.reg, s.tasks[0], s.told, s.ready);
    var prev, l := s.tasks[0].plan[s.tasks[0].at], s.reg.proc.value.states;
    assert prev in Live(s);
    EntryFound(l, Live(s), Leaving(s), prev);
    EntryFound(l, Live(s), Leaving(s), q);
    LookupUpsert(l, Lookup(l, prev.index).value.(status := Draining), q.index);
    if q != prev { LiveApart(Live(s), s.reg.nextIdx, s.reg.born, q, prev); }
  }

  lemma GoodHistory(s: Service)
    requires Good(s)
    ensures History(s.reg.runners, s.reg.born, s.told, s.ready)
  {
    hide History;
  }

  lemma EntryFound(l: seq<InstanceState>, live: set<Runner>, leaving: set<Runner>, r: Runner)
    requires StatesMatch(l, live, leaving) && r in live
    ensures Lookup(l, r.index).Some?
  {
    assert EntryOf(l, r, leaving);
  }

  lemma LiveApart(live: set<Runner>, nextIdx: nat, born: nat, a: Runner, b: Runner)
    requires FreshRunners(live, nextIdx, born) && a in live && b in live && a != b
    ensures a.index != b.index && (a.addr != "" ==> a.addr != b.addr)
  {
    assert Apart(a, b);
  }

  // An entry shows as draining only while a reload is in flight.
  lemma DrainingMeansReloading(ss: seq<Service>, es: seq<Event>, i: nat, st: InstanceState)
    requires OrderlyRun(ss, es) && Init(ss[0]) && i < |ss| && ss[i].reg.runners != []
    requires ss[i].reg.proc.Some? && st in ss[i].reg.proc.value.states && st.status == Draining
    ensures ss[i].reg.reloading
  {
    hide Good, Next, Enabled, StatesMatch;
    var s := ss[i];
    GoodForever(ss, es, i);
    ReloadIsExclusive(ss, es, i);
    ActiveParts(s);
    if s.tasks == [] {
      NoneDraining(s.reg.proc.value.states, Live(s));
    }
  }

  // ---- the front proxy ----

  // Whenever d.mu is free, a live front proxy publishes the addresses of the
  // tracked instances in order, and no instance handed to a drain is published.
  lemma FrontAgrees(ss: seq<Service>, es: seq<Event>, i: nat)
    requires OrderlyRun(ss, es) && Init(ss[0]) && i < |ss| && ss[i].reg.front.Some?
    ensures ss[i].reg.front.value == Upstreams(ss[i].reg.runners)
    ensures forall r :: r in Leaving(ss[i]) ==> r.addr !in ss[i].reg.front.value
  {
    hide Good, Next, Enabled, StatesMatch;
    GoodForever(ss, es, i);
    var s := ss[i];
    if s.reg.runners == [] { NoFrontWhenEmpty(s); }
    ActiveParts(s);
    forall r | r in Leaving(s) ensures r.addr !in s.reg.front.value {
      TaskParts(s);
      ReplacedApart(s, r);
      NotPublished(s.reg.runners, r.addr);
    }
  }

  lemma NoFrontWhenEmpty(s: Service)
    requires Good(s) && s.reg.runners == []
    ensures s.reg.front.None?
  {
  }

  lemma ReplacedApart(s: Service, r: Runner)
    requires Good(s) && s.tasks != [] && r in Leaving(s)
    ensures forall q :: q in s.reg.runners && q.addr != "" ==> q.addr != r.addr
  {
    hide Good, StatesMatch, TaskOk, FrontOk;
    TaskParts(s);
    ActiveParts(s);
    InFlightApart(s.reg, s.tasks[0], s.told, s.ready);
    assert r in InFlight(s.tasks[0]) && r in Live(s);
    forall q | q in s.reg.runners && q.addr != "" ensures q.addr != r.addr {
      assert q in Elements(s.reg.runners) && q in Live(s);
      assert Apart(q, r);
    }
  }

  lemma {:induction false} NotPublished(rs: seq<Runner>, addr: string)
    requires forall q :: q in rs && q.addr != "" ==> q.addr != addr
    ensures addr !in Upstreams(rs)
  {
    if rs != [] {
      assert rs[0] in rs;
      NotPublished(rs[1..], addr);
    }
  }
}
