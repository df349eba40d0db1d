// What the daemon keeps for one service under d.mu, and what each critical
// section of internal/daemon/daemon.go makes of it. The class in Daemon.dfy
// runs these sections on its maps; Protocol.dfy interleaves them.
module Registry {
  import opened Basics
  import opened InstanceList

  datatype Mode = Reuseport | Proxy

  // The part of a service spec the daemon acts on.
  datatype Spec = Spec(instances: int, port: int, mode: Mode) {
    // A value below 1 stands for a single instance.
    function Count(): nat {
      if instances < 1 then 1 else instances
    }

    predicate Fronted() {
      mode == Proxy && port != 0
    }

    // The probe address: what the address search returned, "" when it failed
    // or when the service has no port.
    function HealthAddr(found: string): string {
      if port > 0 then found else ""
    }
  }

  // A runner is a heap object in the daemon: `id` is its identity (which object
  // it is, in order of creation), the other fields are its configuration.
  datatype Runner = Runner(id: nat, index: nat, slot: nat, addr: string)

  datatype Process = Process(spec: Spec, states: seq<InstanceState>)

  // One service's entry in each of the daemon's maps. `born` counts the runner
  // objects created so far for this name, over all its registrations.
  datatype Reg = Reg(
    proc: Option<Process>,
    runners: seq<Runner>,
    nextIdx: nat,
    born: nat,
    front: Option<seq<string>>,
    reloading: bool)

  const UNKNOWN := Reg(None, [], 0, 0, None, false)

  // The i-th answer of the free-address search; "" when it finds none.
  function Found(addrs: seq<string>, i: nat): string {
    if i < |addrs| then addrs[i] else ""
  }

  // ---- the store, seen through one service name ----

  function SetState(proc: Option<Process>, st: InstanceState): Option<Process> {
    match proc
    case None => None
    case Some(p) => Some(p.(states := Upsert(p.states, st)))
  }

  function RemoveState(proc: Option<Process>, index: nat): Option<Process> {
    match proc
    case None => None
    case Some(p) => Some(p.(states := Without(p.states, index)))
  }

  // A runner that writes its own status: a missing entry is created afresh,
  // and then with slot 0 and no address.
  function WriteStatus(proc: Option<Process>, index: nat, status: Status): Option<Process> {
    match proc
    case None => None
    case Some(p) =>
      match Lookup(p.states, index)
      case None => SetState(proc, InstanceState(index, 0, status, ""))
      case Some(st) => SetState(proc, st.(status := status))
  }

  // The reload marks an old instance only when it still has an entry.
  function MarkDraining(proc: Option<Process>, index: nat): Option<Process> {
    match proc
    case None => None
    case Some(p) =>
      match Lookup(p.states, index)
      case None => proc
      case Some(st) => SetState(proc, st.(status := Draining))
  }

  // ---- runner lists ----

  function Upstreams(rs: seq<Runner>): seq<string> {
    if rs == [] then []
    else (if rs[0].addr == "" then [] else [rs[0].addr]) + Upstreams(rs[1..])
  }

  lemma {:induction false} UpstreamsSnoc(rs: seq<Runner>, r: Runner)
    ensures Upstreams(rs + [r]) == Upstreams(rs) + (if r.addr == "" then [] else [r.addr])
  {
    if rs == [] {
      assert rs + [r] == [r];
    } else {
      UpstreamsSnoc(rs[1..], r);
      assert (rs + [r])[1..] == rs[1..] + [r];
    }
  }

  lemma {:induction false} PublishedAddrs(rs: seq<Runner>, addr: string)
    ensures addr in Upstreams(rs) <==> addr != "" && exists q :: q in rs && q.addr == addr
  {
    if rs != [] {
      PublishedAddrs(rs[1..], addr);
      if q :| q in rs && q.addr == addr { assert q == rs[0] || q in rs[1..]; }
    }
  }

  // Swap the first occurrence of `prev`; append when it is not there.
  function Replace(rs: seq<Runner>, prev: Runner, nw: Runner): seq<Runner> {
    if rs == [] then [nw]
    else if rs[0] == prev then [nw] + rs[1..]
    else [rs[0]] + Replace(rs[1..], prev, nw)
  }

  ghost predicate SortedBySlot(rs: seq<Runner>) {
    forall i, j :: 0 <= i < j < |rs| ==> rs[i].slot <= rs[j].slot
  }

  // What sorting a runner slice by slot may return.
  ghost predicate IsSortOf(sorted: seq<Runner>, rs: seq<Runner>) {
    multiset(sorted) == multiset(rs) && SortedBySlot(sorted)
  }

  // ---- critical sections ----

  function Sync(g: Reg, spec: Spec, up: bool): Reg {
    if !spec.Fronted() || (g.front.None? && !up) then g
    else g.(front := Some(Upstreams(g.runners)))
  }

  // The runner that the next allocation yields.
  function NextRunner(g: Reg, spec: Spec, slot: nat, found: string): Runner {
    Runner(g.born, g.nextIdx, slot, spec.HealthAddr(found))
  }

  function StartingState(r: Runner): InstanceState {
    InstanceState(r.index, r.slot, Starting, r.addr)
  }

  // Allocate an index, record the instance as starting, create its runner.
  function Create(g: Reg, spec: Spec, slot: nat, found: string): Reg {
    g.(nextIdx := g.nextIdx + 1,
       born := g.born + 1,
       proc := SetState(g.proc, StartingState(NextRunner(g, spec, slot, found))))
  }

  function AddInstance(g: Reg, spec: Spec, slot: nat, found: string): Reg {
    Create(g, spec, slot, found).(runners := g.runners + [NextRunner(g, spec, slot, found)])
  }

  // Add one instance for each slot in [from, upto).
  function Grow(g: Reg, spec: Spec, from: nat, upto: nat, addrs: seq<string>): Reg
    decreases upto - from
  {
    if from >= upto then g
    else Grow(AddInstance(g, spec, from, Found(addrs, from)), spec, from + 1, upto, addrs)
  }

  // Register the spec with no instance states and launch all its instances.
  function Launch(g: Reg, spec: Spec, addrs: seq<string>, up: bool): Reg {
    var cleared := g.(proc := Some(Process(spec, [])), runners := []);
    Sync(Grow(cleared, spec, 0, spec.Count(), addrs), spec, up)
  }

  ghost predicate AnyRunning(g: Reg) {
    g.runners != [] ||
    (g.proc.Some? && exists st :: st in g.proc.value.states && (st.status == Running || st.status == Starting))
  }

  // start; `request` is used only when the name is not registered yet.
  ghost function StartReg(g: Reg, request: Spec, runnable: bool, addrs: seq<string>, up: bool): Reg {
    if !runnable || (g.proc.Some? && AnyRunning(g)) then g
    else if g.proc.Some? then Launch(g, g.proc.value.spec, addrs, up)
    else Launch(g, request, addrs, up)
  }

  function RestartReg(g: Reg, addrs: seq<string>, up: bool): Reg {
    if g.proc.None? then g else Launch(g, g.proc.value.spec, addrs, up)
  }

  // The request is accepted and a background reload begins.
  predicate ReloadBegins(g: Reg) {
    g.proc.Some? && g.proc.value.spec.port != 0 && !g.reloading && g.runners != []
  }

  // reload; a service without a port is not rolled over but restarted, which is
  // a step of its own.
  function ReloadReg(g: Reg, addrs: seq<string>, up: bool): Reg {
    if g.proc.None? || g.proc.value.spec.port == 0 || g.reloading then g
    else if g.runners == [] then Launch(g, g.proc.value.spec, addrs, up)
    else g.(reloading := true)
  }

  function PromoteReg(g: Reg, spec: Spec, prev: Runner, nw: Runner, up: bool): Reg {
    var h := Sync(g.(runners := Replace(g.runners, prev, nw)), spec, up);
    h.(proc := MarkDraining(h.proc, prev.index))
  }

  predicate ScaleAccepted(g: Reg, target: int) {
    target >= 1 && g.proc.Some? && g.runners != [] && target != |g.runners|
  }

  function RemoveStates(proc: Option<Process>, rs: seq<Runner>): Option<Process>
    decreases rs
  {
    if rs == [] then proc else RemoveStates(RemoveState(proc, rs[0].index), rs[1..])
  }

  // What Stop on each of these instances leaves in the store.
  function StopStates(proc: Option<Process>, rs: seq<Runner>): Option<Process>
    decreases rs
  {
    if rs == [] then proc else StopStates(WriteStatus(proc, rs[0].index, Stopped), rs[1..])
  }

  function SetInstances(proc: Option<Process>, n: int): Option<Process> {
    match proc
    case None => None
    case Some(p) => Some(p.(spec := p.spec.(instances := n)))
  }

  // `sorted` is the runner slice as the sort of a scale-down leaves it.
  function Resize(g: Reg, spec: Spec, target: nat, sorted: seq<Runner>, addrs: seq<string>): Reg
    requires |sorted| == |g.runners|
  {
    if target > |g.runners| then Grow(g, spec, |g.runners|, target, addrs)
    else g.(runners := sorted[..target], proc := RemoveStates(g.proc, sorted[target..]))
  }

  function ScaleReg(g: Reg, target: int, sorted: seq<Runner>, addrs: seq<string>, up: bool): Reg
    requires |sorted| == |g.runners|
  {
    if !ScaleAccepted(g, target) then g
    else
      var spec := g.proc.value.spec;
      var h := Sync(Resize(g, spec, target, sorted, addrs), spec, up);
      h.(proc := SetInstances(h.proc, target))
  }

  function DeleteReg(g: Reg): Reg {
    g.(runners := [], nextIdx := 0, front := None)
  }
}
