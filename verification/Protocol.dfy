// The rolling reload as a transition system over one service. Each d.mu
// critical section is one step; background reload tasks, their asynchronous
// drains, status reports of supervised instances and all other commands
// interleave between the steps.
module Protocol {
  import opened Basics
  import opened InstanceList
  import opened Registry

  // Where a reload task stands: before a slot, waiting for the replacement
  // `nr` of the current slot to become healthy, or past an abort.
  datatype Phase = AtSlot | Probing(nr: Runner) | Aborted

  // The state of one background reload: the spec and the snapshot of the runner
  // slice it was handed (sorted by slot), the position reached in it, the
  // replaced runners whose drain has not sent Stop yet, and those that have
  // been sent Stop but whose entry is not removed yet. `birth` is the number of
  // runners created before the task began.
  datatype Task = Task(spec: Spec, plan: seq<Runner>, at: nat, phase: Phase,
                       drains: set<Runner>, dying: set<Runner>, birth: nat)

  // `deleting` counts deletes between their two sections. `told` and `ready`
  // are history: every runner a reload sent Stop to, and every runner that
  // passed a reload's probe.
  datatype Service = Service(reg: Reg, tasks: seq<Task>, deleting: nat,
                             told: set<Runner>, ready: set<Runner>)

  datatype Event =
    | Start(request: Spec, runnable: bool, addrs: seq<string>, up: bool)
    | StopFront
    | Terminate(r: Runner)
    | Restart(addrs: seq<string>, up: bool)
    | DeleteBegin
    | DeleteEnd
    | Reload(plan: seq<Runner>, addrs: seq<string>, up: bool)
    | Scale(target: int, sorted: seq<Runner>, addrs: seq<string>, up: bool)
    | Spawn(k: nat, found: string)
    | Abort(k: nat)
    | Promote(k: nat, up: bool)
    | DrainStop(k: nat, r: Runner)
    | DrainRemove(k: nat, r: Runner)
    | Finish(k: nat)
    | Report(r: Runner, status: Status)

  // ---- runners a service currently has anywhere ----

  function InFlight(t: Task): set<Runner> {
    (if t.phase.Probing? then {t.phase.nr} else {}) + t.drains + t.dying
  }

  // There is never a second task: see ReloadIsExclusive.
  function TaskRunners(ts: seq<Task>): set<Runner> {
    if ts == [] then {} else InFlight(ts[0])
  }

  function Live(s: Service): set<Runner> {
    Elements(s.reg.runners) + TaskRunners(s.tasks)
  }

  // ---- steps ----

  predicate LoopOver(t: Task) {
    t.phase.Aborted? || (t.phase.AtSlot? && t.at >= |t.plan|)
  }

  ghost predicate Enabled(s: Service, e: Event) {
    match e
    case Start(_, _, _, _) => true
    case StopFront => true
    case Terminate(r) => r in s.reg.runners
    case Restart(_, _) => true
    case DeleteBegin => true
    case DeleteEnd => s.deleting > 0
    case Reload(plan, _, _) => IsSortOf(plan, s.reg.runners)
    case Scale(_, sorted, _, _) => IsSortOf(sorted, s.reg.runners) && |sorted| == |s.reg.runners|
    case Spawn(k, _) => k < |s.tasks| && s.tasks[k].phase.AtSlot? && s.tasks[k].at < |s.tasks[k].plan|
    case Abort(k) => k < |s.tasks| && s.tasks[k].phase.Probing?
    case Promote(k, _) => k < |s.tasks| && s.tasks[k].phase.Probing? && s.tasks[k].at < |s.tasks[k].plan|
    case DrainStop(k, r) => k < |s.tasks| && r in s.tasks[k].drains
    case DrainRemove(k, r) => k < |s.tasks| && r in s.tasks[k].dying
    case Finish(k) =>
      k < |s.tasks| && LoopOver(s.tasks[k]) && s.tasks[k].drains == {} && s.tasks[k].dying == {}
    case Report(r, status) => r in Live(s) && status != Draining
  }

  function SetTask(s: Service, k: nat, t: Task): Service
    requires k < |s.tasks|
  {
    s.(tasks := s.tasks[k := t])
  }

  ghost function Next(s: Service, e: Event): Service
    requires Enabled(s, e)
  {
    var g := s.reg;
    match e
    case Start(request, runnable, addrs, up) => s.(reg := StartReg(g, request, runnable, addrs, up))
    case StopFront => s.(reg := g.(front := None))
    case Terminate(r) => s.(reg := g.(proc := WriteStatus(g.proc, r.index, Stopped)))
    case Restart(addrs, up) => s.(reg := RestartReg(g, addrs, up))
    case DeleteBegin =>
      s.(reg := DeleteReg(g), deleting := s.deleting + if g.proc.Some? then 1 else 0)
    case DeleteEnd => s.(reg := g.(proc := None), deleting := s.deleting - 1)
    case Reload(plan, addrs, up) =>
      s.(reg := ReloadReg(g, addrs, up),
         tasks := if ReloadBegins(g) then s.tasks + [Task(g.proc.value.spec, plan, 0, AtSlot, {}, {}, g.born)]
                  else s.tasks)
    case Scale(target, sorted, addrs, up) => s.(reg := ScaleReg(g, target, sorted, addrs, up))
    case Spawn(k, found) =>
      var t := s.tasks[k];
      var slot := t.plan[t.at].slot;
      SetTask(s, k, t.(phase := Probing(NextRunner(g, t.spec, slot, found))))
        .(reg := Create(g, t.spec, slot, found))
    case Abort(k) =>
      var t := s.tasks[k];
      SetTask(s, k, t.(phase := Aborted))
        .(reg := g.(proc := RemoveState(g.proc, t.phase.nr.index)), told := s.told + {t.phase.nr})
    case Promote(k, up) =>
      var t := s.tasks[k];
      var prev := t.plan[t.at];
      SetTask(s, k, t.(phase := AtSlot, at := t.at + 1, drains := t.drains + {prev}))
        .(reg := PromoteReg(g, t.spec, prev, t.phase.nr, up), ready := s.ready + {t.phase.nr})
    case DrainStop(k, r) =>
      var t := s.tasks[k];
      SetTask(s, k, t.(drains := t.drains - {r}, dying := t.dying + {r}))
        .(reg := g.(proc := WriteStatus(g.proc, r.index, Stopped)), told := s.told + {r})
    case DrainRemove(k, r) =>
      var t := s.tasks[k];
      SetTask(s, k, t.(dying := t.dying - {r}))
        .(reg := g.(proc := RemoveState(g.proc, r.index)))
    case Finish(k) =>
      s.(tasks := s.tasks[..k] + s.tasks[k + 1..], reg := g.(reloading := false))
    case Report(r, status) => s.(reg := g.(proc := WriteStatus(g.proc, r.index, status)))
  }

  // ---- runs ----

  // A freshly started daemon: nothing runs, but the name may already be
  // registered, with any leftover instance states, from the state file.
  ghost predicate Init(s: Service) {
    s.reg == UNKNOWN.(proc := s.reg.proc) && s.tasks == [] && s.deleting == 0 && s.told == {} && s.ready == {}
  }

  ghost predicate IsRun(ss: seq<Service>, es: seq<Event>) {
    |ss| == |es| + 1 &&
    forall i :: 0 <= i < |es| ==> Enabled(ss[i], es[i]) && ss[i + 1] == Next(ss[i], es[i])
  }

  ghost predicate RunTo(ss: seq<Service>, es: seq<Event>, s: Service, n: Service) {
    IsRun(ss, es) && ss[0] == s && ss[|es|] == n
  }

  lemma Extended(ss: seq<Service>, es: seq<Event>, s: Service, n: Service, e: Event)
    requires RunTo(ss, es, s, n) && Enabled(n, e)
    ensures RunTo(ss + [Next(n, e)], es + [e], s, Next(n, e))
  {
    hide Next, Enabled;
  }

  // The commands that replace or drop tracked runners - restart, delete and a
  // scale-down - are kept apart from a reload of the same service, and no
  // command of the service starts between the two sections of a delete.
  ghost predicate Orderly(s: Service, e: Event) {
    match e
    case Start(_, _, _, _) => s.deleting == 0
    case Reload(_, _, _) => s.deleting == 0
    case Restart(_, _) => s.deleting == 0 && s.tasks == []
    case DeleteBegin => s.deleting == 0 && s.tasks == []
    case Scale(target, _, _, _) => s.deleting == 0 && (s.tasks != [] ==> target >= |s.reg.runners|)
    case _ => true
  }

  ghost predicate Unused(found: string, s: Service) {
    found == "" || forall r :: r in Live(s) ==> r.addr != found
  }

  ghost predicate Distinct(addrs: seq<string>) {
    forall i, j :: 0 <= i < j < |addrs| && addrs[i] != "" ==> addrs[i] != addrs[j]
  }

  // The free-address search answers with addresses that no live instance has.
  ghost predicate FreshAddrs(s: Service, e: Event) {
    match e
    case Start(_, _, addrs, _) => Distinct(addrs)
    case Restart(addrs, _) => Distinct(addrs)
    case Reload(_, addrs, _) => Distinct(addrs)
    case Scale(_, _, addrs, _) => Distinct(addrs) && forall i :: 0 <= i < |addrs| ==> Unused(addrs[i], s)
    case Spawn(_, found) => Unused(found, s)
    case _ => true
  }

  ghost predicate OrderlyRun(ss: seq<Service>, es: seq<Event>) {
    IsRun(ss, es) && forall i :: 0 <= i < |es| ==> Orderly(ss[i], es[i]) && FreshAddrs(ss[i], es[i])
  }

  // ---- exclusivity: needs no hypothesis on how commands interleave ----

  ghost predicate Exclusive(s: Service) {
    |s.tasks| <= 1 && (s.reg.reloading <==> |s.tasks| == 1)
  }

  lemma {:induction false} GrowKeepsFlags(g: Reg, spec: Spec, from: nat, upto: nat, addrs: seq<string>)
    ensures var h := Grow(g, spec, from, upto, addrs);
            h.reloading == g.reloading && h.front == g.front && h.proc.Some? == g.proc.Some? &&
            (g.proc.Some? ==> h.proc.value.spec == g.proc.value.spec)
    decreases upto - from
  {
    if from < upto {
      GrowKeepsFlags(AddInstance(g, spec, from, Found(addrs, from)), spec, from + 1, upto, addrs);
    }
  }

  lemma LaunchKeepsFlag(g: Reg, spec: Spec, addrs: seq<string>, up: bool)
    ensures Launch(g, spec, addrs, up).reloading == g.reloading
  {
    GrowKeepsFlags(g.(proc := Some(Process(spec, [])), runners := []), spec, 0, spec.Count(), addrs);
  }

  lemma StepKeepsExclusive(s: Service, e: Event)
    requires Exclusive(s) && Enabled(s, e)
    ensures Exclusive(Next(s, e))
  {
    match e {
      case Start(request, runnable, addrs, up) =>
        LaunchKeepsFlag(s.reg, request, addrs, up);
        if s.reg.proc.Some? { LaunchKeepsFlag(s.reg, s.reg.proc.value.spec, addrs, up); }
      case Restart(addrs, up) =>
        if s.reg.proc.Some? { LaunchKeepsFlag(s.reg, s.reg.proc.value.spec, addrs, up); }
      case Reload(plan, addrs, up) =>
        if s.reg.proc.Some? { LaunchKeepsFlag(s.reg, s.reg.proc.value.spec, addrs, up); }
      case Scale(target, sorted, addrs, up) =>
        if ScaleAccepted(s.reg, target) && target > |s.reg.runners| {
          GrowKeepsFlags(s.reg, s.reg.proc.value.spec, |s.reg.runners|, target, addrs);
        }
      case _ =>
    }
  }

  // At most one reload task exists, and the flag is set exactly while it or one
  // of its drains is unfinished, whatever commands interleave.
  lemma {:induction false} ReloadIsExclusive(ss: seq<Service>, es: seq<Event>, i: nat)
    requires IsRun(ss, es) && Init(ss[0]) && i < |ss|
    ensures Exclusive(ss[i])
  {
    if i > 0 {
      ReloadIsExclusive(ss, es, i - 1);
      StepKeepsExclusive(ss[i - 1], es[i - 1]);
    }
  }
}
