// The zero-downtime claim: the front proxy's dial composed with the reload
// protocol. A dial works on a snapshot of the upstreams while reload steps
// change the instances behind it.
module ZeroDowntime {
  import opened Basics
  import opened Registry
  import opened Protocol
  import opened Invariants
  import opened ReloadResults
  import opened Proxy
  import opened AnyRun
  import opened Overlap

  // Tracked, and not told to stop by a reload.
  ghost predicate Serving(s: Service, r: Runner) {
    r in s.reg.runners && r !in s.told
  }

  ghost function ServingAddrs(s: Service): set<string> {
    set r | r in s.reg.runners && r !in s.told :: r.addr
  }

  // The steps that drop no tracked instance other than by a swap.
  predicate Steady(s: Service, e: Event) {
    !e.Restart? && !e.DeleteBegin? && (e.Scale? && ScaleAccepted(s.reg, e.target) ==> e.target > |s.reg.runners|)
  }

  ghost predicate SteadyBetween(ss: seq<Service>, es: seq<Event>, a: nat, b: nat)
    requires b <= |es| <= |ss|
  {
    forall i :: a <= i < b ==> Steady(ss[i], es[i])
  }

  // The number of upstream swaps in [a, b).
  function Swaps(es: seq<Event>, a: nat, b: nat): nat
    requires a <= b <= |es|
    decreases b - a
  {
    if a == b then 0 else Swaps(es, a, b - 1) + (if es[b - 1].Promote? then 1 else 0)
  }

  // The positions of the runner list that a run has written in [a, b).
  ghost function Touched(ss: seq<Service>, a: nat, b: nat): set<nat>
    requires a <= b < |ss|
    decreases b - a
  {
    if a == b then {} else Touched(ss, a, b - 1) + Changed(ss[b - 1].reg.runners, ss[b].reg.runners)
  }

  function Changed(rs: seq<Runner>, qs: seq<Runner>): (s: set<nat>) {
    set p: nat | p < |rs| && p < |qs| && rs[p] != qs[p]
  }

  lemma SteadyStep(s: Service, e: Event)
    requires Good(s) && Enabled(s, e) && Steady(s, e) && s.reg.runners != []
    ensures |Next(s, e).reg.runners| >= |s.reg.runners|
    ensures |Changed(s.reg.runners, Next(s, e).reg.runners)| <= if e.Promote? then 1 else 0
  {
    hide Good, Next, Enabled, Changed;
    if e.Promote? {
      SwapStep(s, e);
    } else {
      StillStep(s, e);
      NothingChanged(s.reg.runners, Next(s, e).reg.runners);
    }
  }

  lemma NothingChanged(rs: seq<Runner>, qs: seq<Runner>)
    requires rs <= qs
    ensures Changed(rs, qs) == {}
  {
    assert forall p :: 0 <= p < |rs| ==> rs[p] == qs[p];
  }

  lemma StillStep(s: Service, e: Event)
    requires Good(s) && Enabled(s, e) && Steady(s, e) && !e.Promote? && s.reg.runners != []
    ensures s.reg.runners <= Next(s, e).reg.runners
  {
    hide Good, IsSortOf, WriteStatus, Launch, Grow, RemoveStates, Upstreams;
    ActiveParts(s);
    if e.Scale? && ScaleAccepted(s.reg, e.target) {
      GrowAdds(s.reg, s.reg.proc.value.spec, |s.reg.runners|, e.target, e.addrs);
    }
  }

  lemma SwapStep(s: Service, e: Event)
    requires Good(s) && Enabled(s, e) && e.Promote? && s.reg.runners != []
    ensures |Next(s, e).reg.runners| == |s.reg.runners|
    ensures |Changed(s.reg.runners, Next(s, e).reg.runners)| <= 1
  {
    hide Good, MarkDraining, Replace;
    GoodExclusive(s);
    ProbingBelow(s);
    var rs, qs := s.reg.runners, Next(s, e).reg.runners;
    var prev, nr := s.tasks[0].plan[s.tasks[0].at], s.tasks[0].phase.nr;
    var j := ReplaceTracked(rs, prev, nr);
    assert qs == rs[j := nr];
    SubsetSize(Changed(rs, qs), {j});
  }

  // A steady stretch drops no position of the list and writes at most one per
  // swap; the others keep their instance all along.
  lemma {:induction false} StretchKeeps(ss: seq<Service>, es: seq<Event>, a: nat, b: nat)
    requires OrderlyRun(ss, es) && Init(ss[0]) && a <= b <= |es| && SteadyBetween(ss, es, a, b)
    requires ss[a].reg.runners != []
    ensures |ss[b].reg.runners| >= |ss[a].reg.runners|
    ensures |Touched(ss, a, b)| <= Swaps(es, a, b)
    ensures forall p :: 0 <= p < |ss[a].reg.runners| && p !in Touched(ss, a, b) ==> ss[b].reg.runners[p] == ss[a].reg.runners[p]
    decreases b - a
  {
    hide Good, Next, Enabled, Init, OrderlyRun, Steady, Changed;
    RunLength(ss, es);
    if a < b {
      RunStep(ss, es, b - 1);
      StretchKeeps(ss, es, a, b - 1);
      GoodForever(ss, es, b - 1);
      SteadyStep(ss[b - 1], es[b - 1]);
      UnionSize(Touched(ss, a, b - 1), Changed(ss[b - 1].reg.runners, ss[b].reg.runners));
      UnchangedElsewhere(ss[b - 1].reg.runners, ss[b].reg.runners);
    }
  }

  lemma RunLength(ss: seq<Service>, es: seq<Event>)
    requires OrderlyRun(ss, es)
    ensures |ss| == |es| + 1
  {
    hide Next, Enabled;
  }

  lemma RunStep(ss: seq<Service>, es: seq<Event>, i: nat)
    requires OrderlyRun(ss, es) && i < |es|
    ensures |ss| == |es| + 1 && Enabled(ss[i], es[i]) && ss[i + 1] == Next(ss[i], es[i])
  {
    hide Next, Enabled;
  }

  lemma UnchangedElsewhere(rs: seq<Runner>, qs: seq<Runner>)
    requires |rs| <= |qs|
    ensures forall p :: 0 <= p < |rs| && p !in Changed(rs, qs) ==> qs[p] == rs[p]
  {
  }

  lemma {:induction false} TouchedGrows(ss: seq<Service>, a: nat, m: nat, b: nat)
    requires a <= m <= b < |ss|
    ensures Touched(ss, a, m) <= Touched(ss, a, b)
    decreases b
  {
    if m < b { TouchedGrows(ss, a, m, b - 1); }
  }

  // With fewer swaps since state a than candidate positions, the instance at
  // one of them is tracked, and not told to stop, in every state up to b.
  lemma SomeInstanceStays(ss: seq<Service>, es: seq<Event>, a: nat, b: nat, candidates: set<nat>) returns (p: nat)
    requires OrderlyRun(ss, es) && Init(ss[0]) && a <= b <= |es| && SteadyBetween(ss, es, a, b)
    requires Swaps(es, a, b) < |candidates| && forall q :: q in candidates ==> q < |ss[a].reg.runners|
    ensures p in candidates
    ensures forall m :: a <= m <= b ==> Serving(ss[m], ss[a].reg.runners[p])
  {
    hide Good, Next, Enabled;
    var q :| q in candidates;
    StretchKeeps(ss, es, a, b);
    if candidates <= Touched(ss, a, b) { SubsetSize(candidates, Touched(ss, a, b)); }
    p :| p in candidates && p !in Touched(ss, a, b);
    forall m | a <= m <= b ensures Serving(ss[m], ss[a].reg.runners[p]) {
      StretchKeeps(ss, es, a, m);
      TouchedGrows(ss, a, m, b);
      GoodForever(ss, es, m);
      ActiveParts(ss[m]);
    }
  }

  // The positions whose instances are published.
  function Published(rs: seq<Runner>): set<nat> {
    set p: nat | p < |rs| && rs[p].addr != ""
  }

  lemma {:induction false} PublishedCount(rs: seq<Runner>)
    ensures |Published(rs)| == |Upstreams(rs)|
  {
    if rs != [] {
      var n := |rs| - 1;
      assert rs == rs[..n] + [rs[n]];
      PublishedCount(rs[..n]);
      UpstreamsSnoc(rs[..n], rs[n]);
      assert Published(rs) == Published(rs[..n]) + if rs[n].addr == "" then {} else {n};
    }
  }

  // A client's connection is never turned away by a reload: take a dial on the
  // snapshot `us` published in state a, with its attempts at any states up to
  // b, and let every serving instance accept. If the reload has made fewer
  // swaps in between than there are upstreams, the dial connects to a member of
  // the snapshot.
  lemma DialSurvivesReload(ss: seq<Service>, es: seq<Event>, a: nat, b: nat,
                           us: seq<string>, counter: int, times: seq<nat>, accepts: seq<set<string>>)
    requires OrderlyRun(ss, es) && Init(ss[0]) && a <= b <= |es| && SteadyBetween(ss, es, a, b)
    requires ss[a].reg.front == Some(us) && Swaps(es, a, b) < |us| < TWO63
    requires |times| == |accepts| == |us| && forall i :: 0 <= i < |us| ==> a <= times[i] <= b
    requires forall i, r :: 0 <= i < |us| && Serving(ss[times[i]], r) ==> r.addr in accepts[i]
    requires 0 <= counter < TWO64 && SafeStart(ToInt(counter), |us|)
    ensures var o := DialOutcome(us, counter, accepts);
            o.Connected? && o.attempt < |us| && o.addr in us && o.addr in accepts[o.attempt]
  {
    hide Good, Next, Enabled, SafeStart;
    var rs := ss[a].reg.runners;
    FrontAgrees(ss, es, a);
    PublishedCount(rs);
    var p := SomeInstanceStays(ss, es, a, b, Published(rs));
    PublishedAddrs(rs, rs[p].addr);
    var k :| 0 <= k < |us| && us[k] == rs[p].addr;
    forall i | 0 <= i < |us| ensures us[k] in accepts[i] {
      assert Serving(ss[times[i]], rs[p]);
    }
    DialConnects(us, counter, accepts, k);
  }

  // ---- the bound is exact ----

  // While a reload lasts, an instance of its snapshot serves exactly as long as
  // its slot has not been swapped.
  lemma ServingExactly(ss: seq<Service>, es: seq<Event>, i: nat, j: nat, k: nat)
    requires OrderlyRun(ss, es) && Init(ss[0]) && i < j <= |es|
    requires es[i].Reload? && ReloadBegins(ss[i].reg) && NoFinish(es, i, j) && k < |es[i].plan|
    ensures |ss[j].tasks| == 1
    ensures Serving(ss[j], es[i].plan[k]) <==> k >= ss[j].tasks[0].at
  {
    hide Good, Next, Enabled, FreshRunners, StatesMatch, SlotsOk;
    TaskPersists(ss, es, i, j);
    GoodForever(ss, es, j);
    TaskParts(ss[j]);
    ActiveParts(ss[j]);
    var t := ss[j].tasks[0];
    if t.plan[k] in t.drains {
      var heir := DrainedHasHeir(t, ss[j].reg, ss[j].told, ss[j].ready, t.plan[k]);
    }
  }

  // The swaps of a reload are the positions it has passed.
  lemma {:induction false} SwapsArePositions(ss: seq<Service>, es: seq<Event>, i: nat, j: nat)
    requires IsRun(ss, es) && Init(ss[0]) && i < j <= |es|
    requires es[i].Reload? && ReloadBegins(ss[i].reg) && NoFinish(es, i, j)
    ensures |ss[j].tasks| == 1 && Swaps(es, i, j) == ss[j].tasks[0].at
  {
    hide Next, Enabled;
    TaskPersists(ss, es, i, j);
    ReloadIsExclusive(ss, es, j - 1);
    if j > i + 1 {
      SwapsArePositions(ss, es, i, j - 1);
      PositionMoves(ss[j - 1], es[j - 1]);
    } else {
      PositionStarts(ss[i], es[i]);
    }
  }

  lemma PositionMoves(s: Service, e: Event)
    requires |s.tasks| == 1 && Exclusive(s) && Enabled(s, e) && !e.Finish?
    ensures |Next(s, e).tasks| == 1 && Next(s, e).tasks[0].at == s.tasks[0].at + if e.Promote? then 1 else 0
  {
    hide StartReg, RestartReg, ReloadReg, ScaleReg, PromoteReg, WriteStatus, IsSortOf;
  }

  lemma PositionStarts(s: Service, e: Event)
    requires Exclusive(s) && Enabled(s, e) && e.Reload? && ReloadBegins(s.reg)
    ensures Next(s, e).tasks != [] && Next(s, e).tasks[0].at == 0
  {
    assert s.tasks == [];
  }

  lemma {:induction false} SwapsAdd(es: seq<Event>, a: nat, m: nat, b: nat)
    requires a <= m <= b <= |es|
    ensures Swaps(es, a, b) == Swaps(es, a, m) + Swaps(es, m, b)
    decreases b - m
  {
    if m < b { SwapsAdd(es, a, m, b - 1); }
  }

  // All the steps of a reload are steady.
  lemma ReloadIsSteady(ss: seq<Service>, es: seq<Event>, i: nat, j: nat)
    requires OrderlyRun(ss, es) && Init(ss[0]) && i < j <= |es|
    requires es[i].Reload? && ReloadBegins(ss[i].reg) && NoFinish(es, i, j)
    ensures SteadyBetween(ss, es, i, j)
  {
    hide Next, Enabled;
    forall m | i < m < j ensures Steady(ss[m], es[m]) {
      TaskPersists(ss, es, i, m);
      assert Orderly(ss[m], es[m]);
    }
  }

  // At a point j of a reload, a member of the list that was tracked at an
  // earlier point a of it, or when it began, is still serving if and only if
  // there were fewer swaps in between than members.
  lemma SnapshotServesExactly(ss: seq<Service>, es: seq<Event>, i: nat, a: nat, j: nat)
    requires OrderlyRun(ss, es) && Init(ss[0]) && i <= a <= j <= |es| && i < j
    requires es[i].Reload? && ReloadBegins(ss[i].reg) && NoFinish(es, i, j)
    ensures (exists r :: r in ss[a].reg.runners && Serving(ss[j], r)) <==> Swaps(es, a, j) < |ss[a].reg.runners|
  {
    hide Good, Next, Enabled, SlotsOk;
    var rs := ss[a].reg.runners;
    ReloadIsSteady(ss, es, i, j);
    if Swaps(es, a, j) < |rs| {
      var p := SomeInstanceStays(ss, es, a, j, UpTo(|rs|));
    } else {
      WholeReload(ss, es, i, a, j);
      forall r | r in rs ensures !Serving(ss[j], r) {
        assert r in Elements(rs) && r in Elements(es[i].plan);
        var k :| 0 <= k < |es[i].plan| && es[i].plan[k] == r;
        ServingExactly(ss, es, i, j, k);
      }
    }
  }

  // As many swaps as tracked instances can only be all those of the reload.
  lemma WholeReload(ss: seq<Service>, es: seq<Event>, i: nat, a: nat, j: nat)
    requires OrderlyRun(ss, es) && Init(ss[0]) && i <= a <= j <= |es| && i < j
    requires es[i].Reload? && ReloadBegins(ss[i].reg) && NoFinish(es, i, j)
    requires Swaps(es, a, j) >= |ss[a].reg.runners|
    ensures Elements(ss[a].reg.runners) == Elements(es[i].plan)
    ensures |ss[j].tasks| == 1 && ss[j].tasks[0].at >= |es[i].plan|
  {
    hide Good, Next, Enabled, SlotsOk, IsSortOf, Swaps;
    SwapsArePositions(ss, es, i, j);
    PlanCounted(ss, es, i, j);
    if i < a {
      SwapsArePositions(ss, es, i, a);
      SwapsAdd(es, i, a, j);
      PlanCounted(ss, es, i, a);
      if ss[a].tasks[0].at == 0 { SameMembers(es[i].plan, ss[a].reg.runners); }
    } else {
      SnapshotSorted(ss, es, i);
    }
  }

  lemma SnapshotSorted(ss: seq<Service>, es: seq<Event>, i: nat)
    requires OrderlyRun(ss, es) && Init(ss[0]) && i < |es| && es[i].Reload? && ReloadBegins(ss[i].reg)
    ensures Elements(es[i].plan) == Elements(ss[i].reg.runners) && |es[i].plan| == |ss[i].reg.runners|
  {
    hide Good, Next, FreshRunners, StatesMatch, SlotsOk, IsSortOf;
    assert Enabled(ss[i], es[i]);
    BeginSorted(ss[i], es[i]);
    GoodForever(ss, es, i);
    ActiveParts(ss[i]);
    SortedSlots(es[i].plan, ss[i].reg.runners);
  }

  // What a reload that has reached position `at` says of the tracked instances.
  lemma PlanCounted(ss: seq<Service>, es: seq<Event>, i: nat, j: nat)
    requires OrderlyRun(ss, es) && Init(ss[0]) && i < j <= |es|
    requires es[i].Reload? && ReloadBegins(ss[i].reg) && NoFinish(es, i, j)
    ensures |ss[j].tasks| == 1 && ss[j].tasks[0].at <= |es[i].plan| <= |ss[j].reg.runners| && SlotsOk(ss[j].reg.runners)
    ensures forall k :: 0 <= k < |es[i].plan| ==> es[i].plan[k].slot == k
    ensures forall k :: ss[j].tasks[0].at <= k < |es[i].plan| ==> es[i].plan[k] in ss[j].reg.runners
  {
    hide Good, Next, Enabled, FreshRunners, StatesMatch, SlotsOk;
    TaskPersists(ss, es, i, j);
    GoodForever(ss, es, j);
    TaskParts(ss[j]);
    ActiveParts(ss[j]);
  }

  // A list of as many different members as another that contains them all.
  lemma SameMembers(plan: seq<Runner>, rs: seq<Runner>)
    requires |plan| >= |rs| && forall i :: 0 <= i < |plan| ==> plan[i] in rs && plan[i].slot == i
    requires SlotsOk(rs)
    ensures Elements(rs) == Elements(plan)
  {
    forall r | r in rs ensures r in plan {
      assert plan[r.slot] in rs && plan[r.slot].slot == r.slot;
    }
  }

  // For an instantaneous dial during a reload, on a snapshot that published all
  // the instances tracked at an earlier point of it and none of whose addresses
  // was handed out again: it connects if and only if there were fewer swaps
  // since than upstreams.
  lemma DialDuringReloadExactly(ss: seq<Service>, es: seq<Event>, i: nat, a: nat, j: nat, us: seq<string>, counter: int)
    requires OrderlyRun(ss, es) && Init(ss[0]) && i <= a <= j <= |es| && i < j
    requires es[i].Reload? && ReloadBegins(ss[i].reg) && NoFinish(es, i, j)
    requires ss[a].reg.front == Some(us) && 0 < |us| == |ss[a].reg.runners| < TWO63
    requires forall r :: r in ss[j].reg.runners && r.addr in us ==> r in ss[a].reg.runners
    requires 0 <= counter < TWO64 && SafeStart(ToInt(counter), |us|)
    ensures DialOutcome(us, counter, seq(|us|, _ => ServingAddrs(ss[j]))).Connected? <==> Swaps(es, a, j) < |us|
  {
    hide Good, Next, Enabled, SafeStart;
    var accepts := seq(|us|, _ => ServingAddrs(ss[j]));
    SnapshotServesExactly(ss, es, i, a, j);
    ReloadIsSteady(ss, es, i, j);
    if Swaps(es, a, j) < |us| {
      DialSurvivesReload(ss, es, a, j, us, counter, seq(|us|, _ => j), accepts);
    } else {
      DialSound(us, counter, accepts);
    }
  }

  // The bound is the best possible: once a reload has taken over every slot, no
  // instance of a snapshot loaded before it is serving.
  lemma FullReloadOutdatesSnapshot(ss: seq<Service>, es: seq<Event>, i: nat, j: nat, r: Runner)
    requires OrderlyRun(ss, es) && Init(ss[0]) && i < j < |es|
    requires es[i].Reload? && ReloadBegins(ss[i].reg) && NoFinish(es, i, j) && es[j].Finish?
    requires forall m :: i < m < j ==> !es[m].Abort?
    requires r in ss[i].reg.runners
    ensures !Serving(ss[j + 1], r) && r in ss[j + 1].told
  {
    hide Good, Next, Enabled;
    ReloadOutcome(ss, es, i, j);
    NoAbortNoAborted(ss, es, i, j);
    assert r in Elements(ss[i].reg.runners);
    var k :| 0 <= k < |es[i].plan| && es[i].plan[k] == r;
  }

  lemma {:induction false} NoAbortNoAborted(ss: seq<Service>, es: seq<Event>, i: nat, j: nat)
    requires IsRun(ss, es) && Init(ss[0]) && i < j <= |es|
    requires es[i].Reload? && ReloadBegins(ss[i].reg) && NoFinish(es, i, j)
    requires forall m :: i < m < j ==> !es[m].Abort?
    ensures |ss[j].tasks| == 1 && !ss[j].tasks[0].phase.Aborted?
  {
    hide Next, Enabled;
    TaskPersists(ss, es, i, j);
    ReloadIsExclusive(ss, es, j - 1);
    if j > i + 1 {
      NoAbortNoAborted(ss, es, i, j - 1);
      StaysUnaborted(ss[j - 1], es[j - 1]);
    } else {
      StartsUnaborted(ss[i], es[i]);
    }
  }

  lemma StaysUnaborted(s: Service, e: Event)
    requires |s.tasks| == 1 && Exclusive(s) && Enabled(s, e) && !e.Abort? && !e.Finish? && !s.tasks[0].phase.Aborted?
    ensures Next(s, e).tasks != [] && !Next(s, e).tasks[0].phase.Aborted?
  {
    hide StartReg, RestartReg, ReloadReg, ScaleReg, PromoteReg, WriteStatus, IsSortOf;
  }

  lemma StartsUnaborted(s: Service, e: Event)
    requires Exclusive(s) && Enabled(s, e) && e.Reload? && ReloadBegins(s.reg)
    ensures Next(s, e).tasks != [] && !Next(s, e).tasks[0].phase.Aborted?
  {
    assert s.tasks == [];
  }

  // With one instance the claim has a genuine exception: a dial that loaded the
  // snapshot before the swap is refused once the drain has stopped the old
  // instance, although the service is up.
  lemma StaleSnapshotOfOne(s: Service, up: bool, counter: int)
    requires Good(s) && s.tasks != [] && s.tasks[0].phase.Probing? && |s.reg.runners| == 1
    requires s.reg.front == Some([s.reg.runners[0].addr]) && 0 <= counter < TWO64
    ensures Enabled(s, Promote(0, up))
    ensures var m, r := Next(s, Promote(0, up)), s.reg.runners[0];
            && Enabled(m, DrainStop(0, r))
            && (var n := Next(m, DrainStop(0, r));
                |n.reg.runners| == 1 && Serving(n, n.reg.runners[0]) &&
                DialOutcome([r.addr], counter, [ServingAddrs(n)]) == Refused)
  {
    hide Good, FreshRunners, StatesMatch, TaskOk, WriteStatus, MarkDraining;
    var r, t := s.reg.runners[0], s.tasks[0];
    TaskParts(s);
    ProbingBelow(s);
    ActiveParts(s);
    NotToldYet(s);
    assert t.plan[t.at] == r;
    InFlightApart(s.reg, t, s.told, s.ready);
    GoodExclusive(s);
    var m := Next(s, Promote(0, up));
    assert m.reg.runners == Replace([r], r, t.phase.nr) == [t.phase.nr];
    assert m.tasks[0].drains == t.drains + {r};
    var n := Next(m, DrainStop(0, r));
    assert n.reg.runners == [t.phase.nr];
    assert Serving(n, n.reg.runners[0]);
    assert r in Live(s) && t.phase.nr in Live(s) && r != t.phase.nr;
    LiveApart(Live(s), s.reg.nextIdx, s.reg.born, r, t.phase.nr);
    assert r.addr != "" by {
      PublishedAddrs(s.reg.runners, r.addr);
    }
    assert r.addr !in ServingAddrs(n);
    SingleRefused(r.addr, counter, ServingAddrs(n));
  }

  lemma SingleRefused(addr: string, counter: int, accepting: set<string>)
    requires 0 <= counter < TWO64 && addr !in accepting
    ensures DialOutcome([addr], counter, [accepting]) == Refused
  {
    assert Pick(ToInt(counter), 0, 1) == 0;
    assert DialFrom([addr], ToInt(counter), 1, [accepting]) == Refused;
  }

  lemma NotToldYet(s: Service)
    requires Good(s) && s.tasks != [] && s.tasks[0].phase.Probing?
    ensures s.tasks[0].phase.nr !in s.told
  {
    TaskParts(s);
    NrUntold(s.reg, s.tasks[0], s.told, s.ready);
  }

  // An orderly run of the exception: a dial that loaded its snapshot while the
  // reload waited for the replacement is refused two steps later, while the
  // replacement is published and serving.
  lemma StaleSnapshotRun(counter: int) returns (ss: seq<Service>, es: seq<Event>, us: seq<string>)
    requires 0 <= counter < TWO64
    ensures OrderlyRun(ss, es) && Init(ss[0]) && |es| == 5 && es[3].Promote? && es[4].DrainStop?
    ensures ss[3].reg.front == Some(us) && |us| == 1
    ensures |ss[5].reg.runners| == 1 && Serving(ss[5], ss[5].reg.runners[0])
    ensures DialOutcome(us, counter, [ServingAddrs(ss[5])]) == Refused
  {
    hide Next, Enabled, OrderlyRun, Init, Good, ServingAddrs, Serving, DialOutcome;
    var tt, fs := ProbingRun();
    RunLength(tt, fs);
    GoodForever(tt, fs, 3);
    StaleSnapshotOfOne(WAITING, true, counter);
    var m := Next(WAITING, Promote(0, true));
    var n := Next(m, DrainStop(0, OLD));
    OrderlyExtended(tt, fs, Promote(0, true));
    OrderlyExtended(tt + [m], fs + [Promote(0, true)], DrainStop(0, OLD));
    ss, es, us := tt + [m] + [n], fs + [Promote(0, true)] + [DrainStop(0, OLD)], ["a"];
  }

  lemma OrderlyExtended(ss: seq<Service>, es: seq<Event>, e: Event)
    requires OrderlyRun(ss, es) && Enabled(ss[|es|], e) && (e.Promote? || e.DrainStop?)
    ensures OrderlyRun(ss + [Next(ss[|es|], e)], es + [e])
  {
    hide Next, Enabled;
  }
}
