// The steps of one reload task, one after the other: what each of them does to
// a good state in which no other command intervenes. RunReload in Daemon.dfy is
// this schedule of the protocol.
module SoloReload {
  import opened Basics
  import opened InstanceList
  import opened Registry
  import opened Protocol
  import opened Invariants
  import opened ReloadResults
  import opened AnyRun

  ghost predicate Rolled(s: Service, spec: Spec, plan: seq<Runner>, birth: nat, at: nat, phase: Phase, drains: set<Runner>) {
    Good(s) && s.tasks == [Task(spec, plan, at, phase, drains, {}, birth)]
  }

  lemma StepGood(s: Service, e: Event)
    requires Good(s) && Enabled(s, e) && ReloadStep(e) && FreshAddrs(s, e)
    ensures Good(Next(s, e))
  {
    hide Good, Next, Enabled;
    StepKeepsGood(s, e);
  }

  // What the reload command hands to the background task.
  lemma Begins(s: Service, plan: seq<Runner>, addrs: seq<string>, up: bool)
    requires Good(s) && s.tasks == [] && ReloadBegins(s.reg) && IsSortOf(plan, s.reg.runners) && Distinct(addrs)
    ensures var e := Reload(plan, addrs, up);
            && Enabled(s, e) && Next(s, e).reg == s.reg.(reloading := true)
            && Rolled(Next(s, e), s.reg.proc.value.spec, plan, s.reg.born, 0, AtSlot, {})
  {
    hide Good, IsSortOf, Distinct;
    assert s.deleting == 0 by { ActiveDeleting(s); }
    StepKeepsGood(s, Reload(plan, addrs, up));
  }

  lemma ActiveDeleting(s: Service)
    requires Good(s) && s.reg.runners != []
    ensures s.deleting == 0
  {
  }

  lemma SlotSpawn(s: Service, spec: Spec, plan: seq<Runner>, birth: nat, at: nat, drains: set<Runner>, found: string)
    requires Rolled(s, spec, plan, birth, at, AtSlot, drains) && at < |plan| && Unused(found, s)
    ensures plan[at].slot == at && Enabled(s, Spawn(0, found))
    ensures var n, nr := Next(s, Spawn(0, found)), NextRunner(s.reg, spec, at, found);
            && Rolled(n, spec, plan, birth, at, Probing(nr), drains)
            && n.reg == Create(s.reg, spec, at, found)
  {
    hide Good, Create, Unused, NextRunner;
    StepGood(s, Spawn(0, found));
    TaskParts(s);
    PlanSlot(s.reg, s.tasks[0], s.told, s.ready);
  }

  lemma SlotAbort(s: Service, spec: Spec, plan: seq<Runner>, birth: nat, at: nat, nr: Runner, drains: set<Runner>)
    requires Rolled(s, spec, plan, birth, at, Probing(nr), drains)
    ensures Enabled(s, Abort(0))
    ensures var n := Next(s, Abort(0));
            && Rolled(n, spec, plan, birth, at, Aborted, drains)
            && n.reg == s.reg.(proc := RemoveState(s.reg.proc, nr.index))
  {
    hide Good, RemoveState;
    StepGood(s, Abort(0));
  }

  lemma SlotPromote(s: Service, spec: Spec, plan: seq<Runner>, birth: nat, at: nat, nr: Runner, drains: set<Runner>, up: bool)
    requires Rolled(s, spec, plan, birth, at, Probing(nr), drains)
    ensures at < |plan| && Enabled(s, Promote(0, up))
    ensures var n := Next(s, Promote(0, up));
            && Rolled(n, spec, plan, birth, at + 1, AtSlot, drains + {plan[at]})
            && n.reg == PromoteReg(s.reg, spec, plan[at], nr, up)
  {
    hide Good, PromoteReg;
    ProbingBelow(s);
    StepGood(s, Promote(0, up));
  }

  // The addresses in use during a reload: those of the instances tracked at its
  // start, and those its own searches found so far.
  ghost predicate AddrsFrom(s: Service, first: seq<Runner>, addrs: seq<string>, used: nat) {
    forall r :: r in Live(s) ==> r in first || r.addr == "" || exists j :: 0 <= j < used && j < |addrs| && r.addr == addrs[j]
  }

  lemma SpawnAddrs(s: Service, n: Service, first: seq<Runner>, addrs: seq<string>, used: nat, nr: Runner)
    requires AddrsFrom(s, first, addrs, used) && |s.tasks| == 1 && |n.tasks| == 1
    requires n.tasks[0] == s.tasks[0].(phase := Probing(nr)) && n.reg.runners == s.reg.runners
    requires nr.addr == "" || nr.addr == Found(addrs, used)
    ensures AddrsFrom(n, first, addrs, used + 1)
  {
    forall r | r in Live(n)
      ensures r in first || r.addr == "" || exists j :: 0 <= j < used + 1 && j < |addrs| && r.addr == addrs[j]
    {
      if r == nr && nr.addr != "" { assert nr.addr == addrs[used]; } else if r != nr { assert r in Live(s); }
    }
  }

  lemma FewerAddrs(s: Service, n: Service, first: seq<Runner>, addrs: seq<string>, used: nat)
    requires AddrsFrom(s, first, addrs, used) && Live(n) <= Live(s)
    ensures AddrsFrom(n, first, addrs, used)
  {
    hide Live;
  }

  lemma NextUnused(s: Service, first: seq<Runner>, addrs: seq<string>, used: nat)
    requires AddrsFrom(s, first, addrs, used) && Distinct(addrs)
    requires forall i, r :: 0 <= i < |addrs| && addrs[i] != "" && r in first ==> r.addr != addrs[i]
    ensures Unused(Found(addrs, used), s)
  {
    hide Live;
  }

  lemma PromoteKeepsAddrs(s: Service, n: Service, spec: Spec, prev: Runner, nr: Runner, up: bool)
    requires |s.tasks| == 1 && |n.tasks| == 1 && s.tasks[0].phase == Probing(nr) && prev in s.reg.runners
    requires n.tasks[0].phase.AtSlot? && n.tasks[0].drains == s.tasks[0].drains + {prev} && n.tasks[0].dying == s.tasks[0].dying
    requires n.reg == PromoteReg(s.reg, spec, prev, nr, up)
    ensures Live(n) <= Live(s)
  {
    PromoteLive(s, spec, prev, nr, up);
    hide PromoteReg;
  }

  lemma PromoteLive(s: Service, spec: Spec, prev: Runner, nr: Runner, up: bool)
    ensures Elements(PromoteReg(s.reg, spec, prev, nr, up).runners) <= Elements(s.reg.runners) + {nr}
  {
    hide MarkDraining;
    ReplaceAdds(s.reg.runners, prev, nr);
  }

  lemma SlotDrain(s: Service, spec: Spec, plan: seq<Runner>, birth: nat, at: nat, phase: Phase, drains: set<Runner>, r: Runner)
    requires Rolled(s, spec, plan, birth, at, phase, drains) && r in drains
    ensures Enabled(s, DrainStop(0, r))
    ensures var m := Next(s, DrainStop(0, r));
            && Enabled(m, DrainRemove(0, r))
            && (var n := Next(m, DrainRemove(0, r));
                && Rolled(n, spec, plan, birth, at, phase, drains - {r})
                && m.reg == s.reg.(proc := WriteStatus(s.reg.proc, r.index, Stopped))
                && n.reg == m.reg.(proc := RemoveState(m.reg.proc, r.index)))
  {
    hide Good, WriteStatus, RemoveState;
    StepGood(s, DrainStop(0, r));
    var m := Next(s, DrainStop(0, r));
    assert {} + {r} == {r} && {r} - {r} == {};
    StepGood(m, DrainRemove(0, r));
  }

  lemma RollFinish(s: Service, spec: Spec, plan: seq<Runner>, birth: nat, at: nat, phase: Phase)
    requires Rolled(s, spec, plan, birth, at, phase, {}) && LoopOver(s.tasks[0])
    ensures Enabled(s, Finish(0))
    ensures var n := Next(s, Finish(0));
            && Good(n) && n.tasks == [] && n.reg == s.reg.(reloading := false)
            && TakenOver(n, plan, at, birth) && |n.reg.runners| == |s.reg.runners|
            && n.reg.proc.Some? && Keys(n.reg.proc.value.states) == Indices(Elements(n.reg.runners))
            && NothingDraining(n.reg.proc.value.states)
  {
    hide Good, TakenOver, SlotsOk, TaskOk, StatesMatch, FreshRunners, NothingDraining;
    StepGood(s, Finish(0));
    var n := Next(s, Finish(0));
    assert n.tasks == [];
    TaskParts(s);
    ActiveParts(s);
    ActiveParts(n);
    FinishedTakenOver(s.tasks[0], s.reg, s.told, s.ready, n);
    OnlyTrackedLive(n);
    NoneDraining(n.reg.proc.value.states, Live(n));
  }
}
