# gpm: a model of the process manager and its proofs

gpm keeps services running. Its daemon holds, for each service, a list of
instance runners, an index counter, an optional front proxy and a flag that says
a reload is in flight; a store beside it holds one status entry per instance.
`gpm reload` replaces the instances of a service one slot at a time: start a
replacement, wait until it is healthy, swap it into the list, publish the new
upstreams, and only then stop the old instance in the background. The promise is
that the service is never down. This project models that protocol and the
algorithms it leans on, and proves what they guarantee.

Layout, from the ground up:

- `Basics`, `InstanceList`, `Registry`: the values. `Registry` gives each critical
  section of the daemon as a function on the entries of one service in all maps.
- `Protocol`, `Invariants`, `ReloadResults`: the reload as a transition system over
  one service, its inductive invariant, and what holds in every orderly run. The
  number of instances is unbounded; a probe may succeed or fail; drains, status
  reports and all commands interleave between steps.
- `AnyRun`: what holds with no discipline on commands or addresses at all: the
  proxy agrees with the tracked instances, and indices are never shared.
- `Discipline`: the guards under which slots and instance count stay right, and the
  proof that they are exactly what is needed.
- `Front`: the same for the front proxy of a name that is registered in one mode after
  the other, and what becomes of a stopped service's front proxy.
- `Overlap`: what becomes of a reload that a restart, scale or delete falls into, of
  an address that is given out twice, and of a `start` after a `stop`; with concrete
  runs.
- `Effects`: what launching, scaling and each slot of a reload leave behind, spelled
  out instance by instance without the functions of `Registry`.
- `Sorting`, `SoloReload`, `Daemon`: the daemon as a class whose methods update its maps, each
  proved against its function in `Registry`. `RunReload` is the rolling loop
  itself; its ghost state is a run of the protocol.
- `Proxy`, `ZeroDowntime`: the front proxy and its dial, and the dial composed with
  the reload protocol.
- `Store`, `Watch`, `Supervisor`, `DrainBudget`, `Readiness`, `Listing`, `Text`,
  `Version`: instance table and service IDs, the binary watcher, crash backoff and
  stopping, the drain budget, the readiness gate, the shown status, log names and
  version order.

## Hypotheses

The model states these openly.

- Each section under `d.mu` is one step. The store has its own lock; a section's
  writes to it are part of that step. The two store calls with which a runner
  reads its entry and writes it back are one step, and are serialised with that
  runner's stop and the removal of its entry: `Report` is a step of an instance
  that is tracked, warming up or draining, `Terminate` one of a tracked instance.
- `Orderly` is the simple discipline of the results on whole reloads and on the
  store: no restart, delete or scale-down of a service while it is reloading, and
  no command of it between the two sections of a delete. Starting, closing the
  front proxy and scaling up may interleave with a reload in any way, and so may the
  stop of an instance, as long as it is tracked when its status is written.
  `ReloadIsExclusive`, the termination results and everything in `AnyRun` do not
  need the discipline.
- A stop command sends its stops after it has released `d.mu`, and each of them may
  last as long as a drain. One that writes its status after the instance's entry has
  been removed is not a step of the model; `ReloadResults.LateWriteExactly` says what
  it does to the store.
- `Harmless` is the weakest discipline for slots and instance count
  (`Discipline.DisciplineIsExact`); every orderly step is harmless. It also allows a
  restart or delete once the reload has no slot left, and a scale-down to no fewer
  instances than the reload replaces. `FrontSafe` is the weakest discipline for the
  front proxy (`Front.FrontIsExact`, for ports that are not negative); every harmless
  step satisfies it.
- `FreshAddrs`: the free-address search yields addresses that no live instance has,
  or none at all. An instance without an address is not published. Slots, indices
  and the agreement of the proxy do not depend on it; that a drained instance is
  unpublished does (`Overlap.UnpublishedExactly`, `Overlap.SharedAddressRun`).
- The store entry that a restart captured before its section is the current one.
- Oracles, as parameters or choices of a step: probe results, whether an address
  was found, whether the proxy port opens, which addresses accept a connection at
  each attempt, run lengths and stop flags seen by a supervisor, file readings,
  whether a binary can be run.
- `sort.Slice` returns some permutation sorted by slot. The protocol allows all of
  them; the class fixes one.
- An `int` of the program is a signed 64-bit integer wherever its width matters
  (dial, parsing of numbers, drain budgets).

## Where the code departs from what is said of it

- A reload's flag is not consulted by restart, delete and a scale-down. A restart
  during a reload leaves two instances for one slot
  (`Overlap.RestartDuringReloadRun`). `Overlap.OverlapExactly` follows such a reload
  to its end: each of its promotions is right if and only if the command was a
  scale and the promoted slot is below its target. `Discipline.DisciplineIsExact`
  says which steps are harmless whatever follows, `Overlap.DeleteDuringReload` that a
  deleted service tracks an instance again.
- A start, restart or reload that launches instances between the two sections of a
  delete leaves a service that is tracked but not registered; this is part of
  `Discipline.DisciplineIsExact`.
- A front proxy may outlive its service, or be opened by a reload whose service is
  gone, and is then not updated any more. `Front.FrontIsExact` gives the exact guards:
  no delete while a reload has slots left, and no launch of a service with a port
  inside a delete. Both break only together with a change of mode
  (`AnyRun.FrontAlwaysAgrees`); `Overlap.StaleFrontRun` and `Front.CrossedRun` are runs
  that do, the second without a launch that meets a front proxy of the other mode.
- A stop during a reload of a proxied service is undone by the next promotion, which
  opens the front proxy again (`Front.StopUndoneRun`); `Front.StaysClosedExactly` says
  when it stays closed.
- A stop that outlasts the drain of the same instance creates its entry again
  (`ReloadResults.LateWriteExactly`).
- A stopped service keeps its runners tracked, so `start` is refused until the
  service is deleted (`Overlap.StartRefusedUntilDelete`).
- A service with one instance has a gap: a dial that loaded its snapshot before the
  swap finds nobody once the old instance has stopped
  (`ZeroDowntime.StaleSnapshotRun`). In general a snapshot outlives a reload if and
  only if there were fewer swaps than members (`ZeroDowntime.SnapshotServesExactly`).
- Dial converts its 64-bit counter to a signed integer; from 2^63 on the remainder
  is negative and the lookup faults (`Proxy.SafeExactly`).
- A stop that arrives between a supervisor's check and its launch does not reach the
  process that is then launched (`Supervisor.StopMissesExactly`).
- A service whose name is a number is reached by its name only if no other service
  has that number as its ID (`Store.ResolveByNameExactly`).
- An application's "not ready" can be overwritten by the serving goroutine
  (`Readiness.ChoiceStandsExactly`).
- The termination signal is meant to shut the readiness gate, but a store of the
  serving goroutine that comes after it opens the gate again
  (`Readiness.ReopensExactly`).
- The watcher accepts a new fingerprint before the reload it asks for can be refused,
  so an accepted fingerprint need not be the running one.
- Two version strings compare antisymmetrically except around "dev" and the empty
  string (`Version.AntisymmetricExactly`).
- A service without a port has no drain budget: its instances are killed after 5
  seconds although their SDK would drain for 30 (`DrainBudget.OutlastsDrainExactly`).

## Model

| member | source | states |
|---|---|---|
| Protocol.ReloadIsExclusive | internal/daemon/daemon.go:538-577 | for every interleaving of all commands there is at most one reload task, and the flag is set exactly while that task or one of its drains is unfinished |
| Invariants.StepKeepsGood | internal/daemon/daemon.go:568-631 | every step of every command, reload task and drain keeps the invariant: slots a permutation of 0..n-1 with n the configured count, fresh pairwise different indices and addresses, one store entry per live instance, proxy agreement, task bookkeeping |
| Invariants.GoodForever | internal/daemon/daemon.go:162-723 | the invariant holds in every state of every orderly run, whatever leftover entries the state file had |
| Invariants.LaunchOk | internal/daemon/daemon.go:265-282 | launching a service fills slots 0..n-1 with fresh indices and writes exactly their entries |
| Invariants.ScaleUpGood | internal/daemon/daemon.go:669-723 | a scale-up keeps the invariant even in the middle of a reload |
| Invariants.ScaleDownGood | internal/daemon/daemon.go:669-723 | dropping the highest slots after sorting leaves a permutation of the remaining slots and removes exactly the dropped entries |
| Invariants.PromoteRolling | internal/daemon/daemon.go:606-617 | swapping in a healthy replacement keeps slots, entries, proxy agreement and the task's bookkeeping |
| Invariants.SwapOk | internal/daemon/daemon.go:904-914 | replacing a tracked runner by one for the same slot keeps the slots a permutation and changes no other runner |
| ReloadResults.EverySlotServed | internal/daemon/daemon.go:568-631 | in every state of an orderly run each slot has a tracked instance that no reload has told to stop, and the slots are a permutation of the configured count |
| ReloadResults.ReplacedBeforeStopped | internal/daemon/daemon.go:606-629 | when a drain sends Stop to an instance, a newer replacement for the same slot has passed its probe, is tracked and has not been told to stop |
| ReloadResults.DrainWasPromoted | internal/daemon/daemon.go:606-629 | an instance waits for a drain only if an earlier promotion of the run swapped it out |
| ReloadResults.AbortLeavesNoTrace | internal/daemon/daemon.go:594-604 | a failed probe leaves runners and proxy untouched and the failed instance in neither runners nor store; only its index stays consumed |
| ReloadResults.TaskPersists | internal/daemon/daemon.go:538-562 | from its first step to its last a reload works on the snapshot it took, whatever other commands do |
| ReloadResults.AbortFixesPosition | internal/daemon/daemon.go:594-604 | after a failed probe the reload never moves on to another slot |
| ReloadResults.ReloadOutcome | internal/daemon/daemon.go:568-631 | a finished reload has taken over a prefix of its slots, all of them unless a probe failed; the rest keep their untouched old instances; the store lists exactly the tracked instances, none as draining, and the flag is clear |
| ReloadResults.Capacity | internal/daemon/daemon.go:568-631 | tracked, warming and draining instances number between n and 2n |
| ReloadResults.StepWork | internal/daemon/daemon.go:568-631 | every step of a reload or its drains lowers its measure of remaining work, and no other command changes it |
| ReloadResults.ReloadTerminates | internal/daemon/daemon.go:568-631 | the reload steps of any run number at most the work of the state it starts in |
| ReloadResults.ReloadTerminatesAfterBegin | internal/daemon/daemon.go:520-577 | a reload of n instances takes at most 4n+1 steps of its own, and after that many the flag is clear |
| ReloadResults.ReloadCanStep | internal/daemon/daemon.go:568-631 | while the flag is set some step of the reload is possible: it never gets stuck |
| ReloadResults.IndicesFresh | internal/daemon/daemon.go:896-900 | in an orderly run, deletes included, live instances have pairwise different indices, all below the next one, and different addresses |
| ReloadResults.RetiredLogs | internal/daemon/daemon.go:931-934 | the log files that an abort, a drain or a scale-down removes are not those of any instance that lives on |
| ReloadResults.RetiredLogsAnyRun | internal/daemon/daemon.go:931-934 | in any run between deletes they are not those of any other instance that lives on |
| ReloadResults.PromotedShowsDraining | internal/daemon/daemon.go:610-617 | a promotion marks exactly the replaced instance's entry as draining |
| ReloadResults.DrainingMeansReloading | internal/daemon/daemon.go:606-629 | an entry of a service with tracked runners shows as draining only while a reload is in flight |
| ReloadResults.LateWriteExactly | internal/process/runner.go:270-306 | a status write keeps the store's indices equal to those of the live instances if and only if its instance is one of them; otherwise it adds an entry for slot 0 without an address |
| ReloadResults.FrontAgrees | internal/daemon/daemon.go:606-629 | in an orderly run, where a name may also be registered in different modes one after the other, the proxy publishes the tracked runners' addresses and none of an instance handed to a drain |
| AnyRun.FrontAlwaysAgrees | internal/daemon/daemon.go:324-351 | under any interleaving of all commands, reloads and drains, a live front proxy publishes exactly the addresses of the tracked runners in order, as long as the name is always registered as proxied or never |
| AnyRun.IndicesNeverShared | internal/daemon/daemon.go:896-900 | between deletes, and under any interleaving, all instances tracked, warming, draining or in a reload's snapshot have different indices below the next one |
| Discipline.StepTidy | internal/daemon/daemon.go:470-723 | every harmless step keeps the slots a permutation of 0..n-1 for the configured count n, and what a reload still has to replace tracked |
| Discipline.SlotsForever | internal/daemon/daemon.go:162-723 | in every run of harmless steps slots and count are right in every state, whatever addresses are given out |
| Discipline.SlotServed | internal/daemon/daemon.go:568-631 | in every state of such a run each slot has a tracked instance that no reload has told to stop or is about to |
| Discipline.HarmfulBreaks | internal/daemon/daemon.go:470-723 | after every step that is not harmless, a run of harmless steps leads to wrong slots, a wrong count or an unregistered service with tracked instances |
| Discipline.DisciplineIsExact | internal/daemon/daemon.go:470-723 | a step is harmless if and only if no run of harmless steps after it ever gets slots or count wrong: nothing launched inside a delete, no restart or delete while a reload has slots left, no scale below the number of instances it replaces |
| Discipline.OrderlyIsHarmless | internal/daemon/daemon.go:470-723 | every orderly step is harmless |
| Overlap.PromoteExactly | internal/daemon/daemon.go:904-914 | a promotion keeps the slots a permutation and the length unchanged if and only if the instance it replaces is still tracked |
| Overlap.OverlapExactly | internal/daemon/daemon.go:470-723 | in a run that is orderly but for one restart or accepted scale while a reload has slots left, each later promotion of that reload leaves slots and count right if and only if it was a scale and the promoted slot is below its target; up to the first one that does not, they are right in every state |
| Overlap.UnpublishedExactly | internal/daemon/daemon.go:606-617 | a promotion takes the replaced instance's address out of the published set if and only if neither its replacement nor another tracked instance has the same one |
| Overlap.SharedAddressRun | internal/daemon/daemon.go:606-629 | a run, orderly but for an address given out twice, that publishes the address of an instance it drains |
| Overlap.DeleteDuringReload | internal/daemon/daemon.go:492-617 | a delete there makes the deleted service track the replacement again |
| Overlap.StartExactly | internal/daemon/daemon.go:162-192 | start launches if and only if the binary is runnable, nothing is tracked and no leftover entry shows as up |
| Overlap.StartRefusedUntilDelete | internal/daemon/daemon.go:916-929 | in any run, once a registered service has tracked runners, every start of it changes nothing until a delete begins |
| Effects.GrowExactly | internal/daemon/daemon.go:695-704 | adding instances appends, for each slot in turn, one with the next index, the address that was found for it if the service has a port, and a starting entry; nothing else changes |
| Effects.LaunchExactly | internal/daemon/daemon.go:265-282 | a launch leaves exactly one such instance per slot of the configured count, a count below one standing for one, exactly their starting entries, and a synchronised front proxy |
| Effects.ScaleExactly | internal/daemon/daemon.go:669-723 | a scale of a registered service with tracked instances to a target of at least one leaves exactly that many and stores that count, adding new instances or dropping those of the highest slots with their entries; every other scale changes nothing |
| Effects.SpawnExactly | internal/daemon/daemon.go:583-592 | the replacement that a reload starts has the next index, the current slot and the address found for it, and a starting entry; nothing else changes |
| Effects.RollsOn | internal/daemon/daemon.go:583-617 | taking over one more slot puts that instance in the position of the old one, keeps every other instance and entry, and publishes the new list |
| Effects.RolledMeans | internal/daemon/daemon.go:286-319 | every replacement of a reload has its own address and a starting entry with it |
| Overlap.LaunchFrontExactly | internal/daemon/daemon.go:265-339 | a launch leaves the proxy in agreement if and only if there was none or the service is a proxied one |
| Overlap.StaleFrontRun | internal/daemon/daemon.go:492-562 | a run in which a reload inside a delete leaves a front proxy publishing an address of no tracked instance |
| Front.StepFront | internal/daemon/daemon.go:162-723 | every step that launches nothing with a port inside a delete, and is no delete while a reload has slots left, keeps the front proxy in agreement and a reload in its service's mode |
| Front.FrontForever | internal/daemon/daemon.go:324-351 | in every run of such steps, and so of harmless ones, whatever the modes a name is registered in, a live front proxy belongs to a proxied service and publishes the tracked runners' addresses in order |
| Front.UnsafeGoesWrong | internal/daemon/daemon.go:324-351 | after every other step there is a run of harmless steps to a front proxy that does not |
| Front.FrontIsExact | internal/daemon/daemon.go:324-351 | a step is safe if and only if no run of safe steps after it ever makes a live front proxy publish anything but the tracked instances, for ports that are not negative |
| Front.HarmlessForFront | internal/daemon/daemon.go:324-351 | a delete, or a launch inside a delete, of a service with a port is harmless if and only if no run of harmless steps after it gets the front proxy wrong |
| Front.CrossedRun | internal/daemon/daemon.go:606-723 | a run in which no launch finds a front proxy, and a promotion of a deleted service's reload and a scale leave a wrong one |
| Front.StaysClosedExactly | internal/daemon/daemon.go:355-360 | from a state without a front proxy there is none in any later state if and only if no launch, accepted scale or promotion for a proxied service opens one in between |
| Front.StopUndoneRun | internal/daemon/daemon.go:451-617 | an orderly run in which a stop closes the front proxy and the reload's next promotion opens it again |
| Front.LeavingPublishedExactly | internal/daemon/daemon.go:606-629 | in every state of a run of harmless steps, the address of an instance handed to a drain is published if and only if a tracked instance has been given it too |
| Overlap.ProbingRun | internal/daemon/daemon.go:568-592 | an orderly run in which a reload of a proxied one-instance service waits for its first replacement to become healthy |
| Overlap.RestartDuringReloadRun | internal/daemon/daemon.go:470-490 | a run, orderly but for one restart, after which two instances hold the same slot |
| SoloReload.SlotPromote | internal/daemon/daemon.go:606-617 | with no other command in between, a promotion moves the reload to the next slot and hands the old instance to a drain |
| SoloReload.RollFinish | internal/daemon/daemon.go:569-576 | when loop and drains are over the flag is cleared and the prefix has been taken over |
| Daemon.Daemon.AllocIndexLocked | internal/daemon/daemon.go:896-900 | hands out the next index and advances the counter of that service only |
| Daemon.Daemon.UpstreamsLocked | internal/daemon/daemon.go:343-351 | the loop yields the non-empty addresses of the tracked runners in order |
| Daemon.Daemon.SyncProxyLocked | internal/daemon/daemon.go:324-339 | publishes the tracked addresses for a proxied service with a port, if its proxy is live or can be opened, and touches nothing else |
| Daemon.Daemon.StartInstancesLocked | internal/daemon/daemon.go:265-279 | the launching loop leaves one new instance and starting entry per slot, as spelled out for a launch |
| Daemon.Daemon.AnyRunningLocked | internal/daemon/daemon.go:916-929 | true if and only if a runner is tracked or an entry shows as running or starting |
| Daemon.Daemon.ReplaceRunnerLocked | internal/daemon/daemon.go:904-914 | the search loop swaps the first occurrence in its position, or appends when there is none |
| Daemon.Daemon.CmdStart | internal/daemon/daemon.go:162-192 | accepted if and only if the binary is runnable and a registered service has no tracked instance and no entry that is up; launches the stored spec, or the request for a new name, and otherwise changes nothing |
| Daemon.Daemon.StopAll | internal/daemon/daemon.go:462-464 | sends Stop to each of the instances, in order, and has each write its own entry and nothing else |
| Daemon.StoppedExactly | internal/process/runner.go:270-277 | after it exactly the entries of the stopped instances show as stopped, slot and address kept, and the others are as before |
| Daemon.StopIsRun | internal/daemon/daemon.go:462-464 | those stops are steps of the protocol, one per instance |
| Daemon.Daemon.CmdStop | internal/daemon/daemon.go:451-466 | closes the front proxy, sends Stop to exactly the tracked instances, marks their entries, keeps them tracked, and answers not found exactly for a service neither tracked nor registered |
| Daemon.Daemon.CmdRestart | internal/daemon/daemon.go:470-490 | sends Stop to exactly the tracked instances of a known service and relaunches it from its stored spec, with nothing left of the stops; refuses an unknown one |
| Daemon.Daemon.CmdDeleteLocked | internal/daemon/daemon.go:493-500 | the first section forgets runners, index counter and proxy and keeps the store entry |
| Daemon.Daemon.CmdDelete | internal/daemon/daemon.go:492-511 | sends Stop to exactly the tracked instances of a known service and forgets it in every map but the reload flag; refuses an unknown one |
| Daemon.Daemon.CmdReload | internal/daemon/daemon.go:520-562 | starts a background reload on the tracked runners if and only if the service is known, has a port, is not reloading and has runners; restarts one without a port, launches one without runners |
| Daemon.Daemon.CmdScale | internal/daemon/daemon.go:669-723 | changes something if and only if the target is at least one, the service is registered and tracked, and the target is not the present number; then exactly that many are tracked and stored, instance by instance as spelled out for a scale, and exactly the dropped ones are sent Stop |
| Daemon.Daemon.AbandonReplacement | internal/daemon/daemon.go:594-604 | stops the failed replacement, and leaves only the removal of its entry |
| Daemon.Daemon.PromoteLocked | internal/daemon/daemon.go:606-617 | swap, publish and mark in the order of the code have the effect of the protocol's promotion, and the new list is published |
| Daemon.Daemon.RunReload | internal/daemon/daemon.go:568-631 | the rolling loop performs a run of the protocol and takes over exactly the slots before the first failed probe: in each position there is a new instance with its own index, its own address and a starting entry, or the untouched old one; a live front proxy publishes them; exactly the failed and the replaced instances are sent Stop; the flag is clear, the store agrees and nothing is draining |
| Daemon.Daemon.Reload | internal/daemon/daemon.go:520-631 | command and background task chained: what the command hands over is what the task needs, and the task's results follow from the state before the command |
| Sorting.SortSorts | internal/daemon/daemon.go:579-582 | sorting by slot yields a permutation sorted by slot |
| Proxy.Proxy.SetUpstreams | internal/proxy/proxy.go:43-47 | stores a fresh copy of the caller's slice, which stays as it was |
| Proxy.Proxy.Dial | internal/proxy/proxy.go:88-101 | advances the shared counter once, modulo 2^64, unless there is no upstream; connects at once to the upstream at the counter's remainder if that accepts and the counter is below 2^63, and otherwise has the declared outcome on the loaded snapshot |
| Proxy.SafeExactly | internal/proxy/proxy.go:93-100 | no attempt of a dial looks up a negative index if and only if the start value is non-negative and the sum does not wrap below zero, or there is a single upstream, or the one harmless wrap |
| Proxy.VisitsEveryUpstream | internal/proxy/proxy.go:93-100 | with a safe start the attempts of one dial visit every index exactly once |
| Proxy.DialConnects | internal/proxy/proxy.go:88-101 | if some member of the snapshot accepts throughout, the dial connects, to the first accepting upstream counting on cyclically from the counter |
| Proxy.DialSound | internal/proxy/proxy.go:88-101 | a dial connects only to an accepting member of the snapshot and is refused only if every attempt was |
| Proxy.FirstChoice | internal/proxy/proxy.go:93-99 | a dial whose counter points at an accepting upstream connects to it at the first attempt |
| Proxy.FaultExactly | internal/proxy/proxy.go:93-95 | a dial that nobody accepts looks up a negative index if and only if its start value is not safe, and is refused otherwise |
| Proxy.RemTruncates | internal/proxy/proxy.go:95-95 | the remainder is that of truncated division, with the sign of its left operand |
| Proxy.RoundRobinIsFair | internal/proxy/proxy.go:93-97 | with all upstreams accepting, k dials with consecutive counter values connect to each of n upstreams k/n times, rounded down or up |
| ZeroDowntime.StretchKeeps | internal/daemon/daemon.go:606-617 | over a stretch without restart, delete or scale-down the list keeps its positions and at most one changes per swap |
| ZeroDowntime.SomeInstanceStays | internal/daemon/daemon.go:606-629 | with fewer swaps than candidate positions, the instance at one of them stays tracked and untold throughout the stretch |
| ZeroDowntime.DialSurvivesReload | internal/proxy/proxy.go:88-101 | a dial on a snapshot, its attempts spread over a stretch of reloads and scale-ups with fewer swaps than upstreams, connects to a member of the snapshot |
| ZeroDowntime.ServingExactly | internal/daemon/daemon.go:606-629 | while a reload lasts, an instance of its snapshot serves if and only if its slot has not been swapped |
| ZeroDowntime.SnapshotServesExactly | internal/daemon/daemon.go:606-629 | at any point of a reload, a member of the list tracked at an earlier point of it still serves if and only if there were fewer swaps in between than members |
| ZeroDowntime.DialDuringReloadExactly | internal/proxy/proxy.go:88-101 | an instantaneous dial on such a fully published snapshot connects if and only if there were fewer swaps than upstreams |
| ZeroDowntime.FullReloadOutdatesSnapshot | internal/daemon/daemon.go:568-631 | the bound is the best possible: after a full reload no instance of an earlier snapshot is serving |
| ZeroDowntime.StaleSnapshotOfOne | internal/proxy/proxy.go:88-101 | with one instance, swap and drain between load and attempt refuse the dial although the service is up |
| ZeroDowntime.StaleSnapshotRun | internal/proxy/proxy.go:88-101 | an orderly run from a fresh daemon in which this happens |
| InstanceList.LookupUpsert | internal/state/store.go:246-276 | setting an entry is map update seen through the lookup |
| InstanceList.LookupWithout | internal/state/store.go:263-293 | removing an entry is map removal seen through the lookup |
| Store.InstanceTable.Get | internal/state/store.go:263-276 | the search loop returns the first entry with that index, and nothing exactly when there is none |
| Store.InstanceTable.Set | internal/state/store.go:246-260 | overwrites the entry in place or appends it |
| Store.InstanceTable.Remove | internal/state/store.go:279-293 | compacting over the array it reads from leaves exactly the other entries in their order |
| Store.TableIsMap | internal/state/store.go:246-293 | both operations keep one entry per index and are update and removal of the map that the list stands for |
| Store.WithoutKeepsOrder | internal/state/store.go:279-293 | any two kept entries stay in their order |
| Store.FreeIdBound | internal/state/store.go:197-209 | a search that has found 0..id-1 taken is within the number of services, so it stops |
| Store.NextFreeID | internal/state/store.go:197-209 | terminates with the least unused ID, at most the number of services |
| Store.HistoryIds | internal/state/store.go:197-209 | over any history of registrations and deletions IDs are unique and below the largest number of services registered at once |
| Store.Resolve | internal/state/store.go:213-226 | numeric text is looked up among the IDs only, other text among the names, and neither is found when absent |
| Store.ResolveById | internal/state/store.go:213-226 | the decimal ID of a service resolves to that service |
| Store.UnknownUnresolved | internal/state/store.go:213-226 | a decimal that is no service's ID resolves to nothing, whatever services are called, and other text exactly to the service of that name |
| Store.ResolveByNameExactly | internal/daemon/daemon.go:100-107 | a request by name reaches that service if and only if the name does not parse as the ID of another one |
| Store.NumericNameMissed | internal/state/store.go:213-226 | two services of which the second, called "0", is not reached by its name |
| Watch.WatchBinary | internal/daemon/daemon.go:365-447 | the automaton with its three variables, fed with the status of the binary at each tick, triggers exactly at the ticks of the declarative specification |
| Watch.TriggersAreFires | internal/daemon/daemon.go:408-447 | a tick triggers if and only if its reading and the one before are the same valid fingerprint and not the one last accepted |
| Watch.TriggersExactly | internal/daemon/daemon.go:408-447 | a tick triggers if and only if its reading and the one before are the same valid fingerprint and not that of the trigger before it, or the initial one |
| Watch.SameFingerprintExactly | internal/daemon/daemon.go:365-377 | two readings are the same valid fingerprint if and only if both are files of equal size and modification time |
| Watch.TriggersChange | internal/daemon/daemon.go:408-447 | consecutive triggers carry different valid fingerprints, the first one differs from the initial |
| Watch.TriggersAreRare | internal/daemon/daemon.go:408-447 | no two neighbouring ticks trigger, so triggers number at most half the ticks |
| Watch.SettledIsAccepted | internal/daemon/daemon.go:408-447 | once two ticks in a row read the same valid fingerprint it is the accepted one |
| Watch.UnsettledNeverAccepted | internal/daemon/daemon.go:408-447 | a fingerprint that no two neighbouring ticks share is never accepted |
| Supervisor.Runner.Supervise | internal/process/runner.go:102-156 | over any history: a restart is scheduled exactly after the rounds, from the first on, that no stop falls into, of a registered, restarting service below its limit; the first other round ends the loop for the first of these reasons; pauses and errored marks follow from the streak of short runs; restart count, launches and final status are as stated |
| Supervisor.BackoffIsCappedExponential | internal/process/runner.go:32-45 | the backoff is min(30 s, 1 s * 2^(failures-4)) for every failures >= 4, the cap on the shift agreeing with unbounded exponentiation |
| Supervisor.BackoffMonotone | internal/process/runner.go:32-45 | the backoff is monotone and stays between 1 s and 30 s |
| Supervisor.LaunchLimit | internal/process/runner.go:123-127 | with a limit of m restarts at most m are scheduled, and exactly m when nothing else ends the loop |
| Supervisor.SuffixIsShort | internal/process/runner.go:133-137 | the failure counter's meaning: the maximal suffix of runs shorter than 3 s |
| Supervisor.LaunchesCounted | internal/process/runner.go:158-241 | the launches counted are the rounds in which a process ran |
| Supervisor.ErroredExactly | internal/process/runner.go:133-149 | a scheduled restart shows as errored if and only if the last four runs were all short |
| Supervisor.CrashLoopTotal | internal/process/runner.go:102-156 | the pauses after m >= 8 short runs total 34 + 30(m-8) seconds |
| Supervisor.StreakDelay | internal/process/runner.go:102-156 | in any history the pauses after m short runs that follow a stable one add up to exactly that total |
| Supervisor.StreakSpan | internal/process/runner.go:102-156 | the k+1 launches around k short runs in a row span at least that total, wherever in a streak they begin |
| Supervisor.CrashLoopWindow | internal/process/runner.go:102-156 | a window that sees k >= 8 short runs and no other lasts at least 34 + 30(k-8) seconds |
| Supervisor.LaunchesInWindow | internal/process/runner.go:102-156 | in any history at all, a window of w seconds sees at most 1 + (5w + 12)/8 launches |
| Supervisor.WindowBoundAttained | internal/process/runner.go:102-156 | that bound is met by a history of every length: four crashes, then a run of three seconds, over and over |
| Supervisor.StopEndsSupervision | internal/process/runner.go:282-308 | once the stop flag is set, at any point, at most the launch already committed follows, and the steps left are as stated |
| Supervisor.ReturnedExactly | internal/process/runner.go:102-156 | after a stop, supervise has returned if and only if it made three more steps of its own when bound to launch, two when running or pausing, one before a check |
| Supervisor.StopMissesExactly | internal/process/runner.go:282-308 | a process runs on without ever getting its signal if and only if the stop fell between the check and the launch |
| DrainBudget.SdkBudget | pkg/gpm/graceful.go:151-158 | what the daemon prints into the environment parses back to the same duration whenever it fits, and to the 30 s default otherwise |
| DrainBudget.KillFollowsDrainExactly | internal/process/runner.go:312-318 | the kill comes exactly 2 s after the instance's own budget if and only if the budget is positive and its nanoseconds plus 2 s fit into 64 bits, or it wraps around to the default |
| DrainBudget.RequestHonoredExactly | internal/daemon/daemon.go:253-258 | a requested number of seconds becomes the instance's drain time if and only if it fits into a duration |
| DrainBudget.OutlastsDrainExactly | internal/process/runner.go:312-318 | within that limit the manager outlasts the drain if and only if a budget is stored |
| DrainBudget.Defaults | internal/daemon/daemon.go:253-258 | without a request 30000 ms are stored for a service with a port, none without a port, and Stop waits 5 s without a budget |
| Readiness.ChoiceStandsExactly | pkg/gpm/graceful.go:29-43 | the application's readiness choice stands if and only if it is "ready", or Serve was not between its two accesses, or has not gone on |
| Readiness.OpensWhenServing | pkg/gpm/graceful.go:50-84 | unmanaged, the gate opens if and only if Serve has made both its accesses |
| Readiness.ReopensExactly | pkg/gpm/graceful.go:50-84 | after the signal, without a choice of the application, the gate opens again if and only if Serve reads "unmanaged" and its store comes after the signal |
| Readiness.ShutAfterSignal | pkg/gpm/graceful.go:90-100 | once both accesses are made, as in WaitForShutdown before it waits for the signal, the gate stays shut unless the application opens it |
| Listing.AggregateStatus | internal/daemon/daemon.go:790-822 | which entries make a service show as reloading, fully running, in error or at rest |
| Listing.CountCounts | internal/daemon/daemon.go:743-788 | the instances counted as running are the positions with that status |
| Text.AtoiDecimal | internal/state/store.go:213-226 | printing and parsing a number that fits is the identity |
| Text.AtoiOdd | internal/state/store.go:213-226 | a sign in front, a number out of range, and text that is no number parse as strconv.Atoi has them |
| Text.LogNameLooks | internal/process/runner.go:84-86 | the log names of instance 7 of "web", as they look |
| Text.LabelReadsIndex | cmd/commands.go:411-420 | the log view's label parses back the index printed into a log name, whatever the service is called |
| Text.LogNamesInjective | internal/process/runner.go:84-86 | different (name, index) pairs never share a log file |
| Text.StreamsApart | internal/process/runner.go:84-86 | the output and error logs of no two instances coincide |
| Version.SplitVersion | cmd/update.go:298-310 | the loop yields the component of each dotted part of the core version |
| Version.PrintedComponents | cmd/update.go:298-310 | a version printed from a list of numbers, with or without a leading "v", has exactly these numbers as components |
| Version.OddComponents | cmd/update.go:306-306 | a part that is no number counts as zero, one beyond 64 bits as the bound |
| Version.CompareVersions | cmd/update.go:271-296 | the loop computes the declared comparison |
| Version.ComparePrinted | cmd/update.go:271-296 | comparing two printed versions compares their numbers lexicographically, a missing number counting as zero |
| Version.UnreleasedBelow | cmd/update.go:271-277 | "dev" and the empty string sort below every other text, and every text is equal to itself |
| Version.CompareIsOrder | cmd/update.go:271-296 | away from "dev" and the empty string the result is the lexicographic order on infinitely zero-padded components, in all three cases |
| Version.CompareTransitive | cmd/update.go:271-296 | that comparison is transitive, ties included |
| Version.AntisymmetricExactly | cmd/update.go:271-296 | exchanging the sides flips the sign if and only if both are released, or equal, or the released one is above zero |
| Version.TrailingZeroTies | cmd/update.go:298-310 | a trailing ".0" makes no difference |
| Version.MetadataIgnored | cmd/update.go:298-310 | what follows the first '-' or '+' makes no difference |

## Left out

- Daemon.Daemon.RunReload: runs without other commands in between and performs the drains after the loop, one after the other; all interleavings of drains, reports and commands are in the transition system, whose sections the class's methods run.
- Daemon.Daemon.CmdStart: the ID of a new registration is in `Store.NextFreeID` and its history; the defaults of a request are not modelled beyond count and drain budget.
- Daemon.Daemon.StartInstancesLocked: does not start the watcher, which is modelled by itself.
- Daemon.Daemon.CmdRestart: runs without other commands between its sections; the transition system has the stops and sections as separate steps.
- Daemon.Daemon.CmdDelete: the same.
- Daemon.Daemon.Reload: the same, between the accepted command and the end of its task.
- Protocol.ReloadIsExclusive: speaks of one service; services share nothing but the address search, and every class method is proved to leave the other services as they were.
- ReloadResults.ReloadTerminates: bounds the steps of a reload, not time; that each probe and each Stop returns is assumed.
- Supervisor.Runner.Supervise: observes a history of runs given to it; writes of other commands to the restart counter in mid-run are not modelled.
- DrainBudget.SdkBudget: covers the texts the daemon prints, whole milliseconds; other duration texts that an operator may put into the environment are not modelled.
- Unix socket, JSON, HTTP, signals, exec, environment assembly, log writing and rotation, the state file: oracles or nothing.
- The readiness probe: only its result is used; its wall-clock bounds and its fallback to the shared port are not modelled.
- Waiting for the health of instances of a first launch or a scale-up: it follows the section and changes no state of the model.
- Resurrecting services, in particular over a live service, and recovery from a stale state file.
- Writes of a supervisor whose runner is tracked nowhere any more, such as one that a restart replaced and that Stop missed.
- Starting and stopping watchers, and a trigger whose reload is refused because one is already running: the watcher has then accepted the fingerprint.
- Socket options and the kernel's balancing of a shared port.
- Defaults of a service spec other than the instance count and the drain budget.
- PID, timestamps and restart counters of store entries within the protocol; the restart counter is part of the supervisor's model.
- Runners are values with an identity number, not heap objects; that stop and delete iterate a slice which a later command may overwrite in place is not captured.
- Names with path separators in log file paths, which the path join would clean.
- Command line, tables, colours, log tailing, download, checksum and installation.
