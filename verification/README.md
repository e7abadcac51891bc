# A verified model of the bugpot host

bugpot runs apps as containers on one host: it starts them on demand, freezes
them when idle, replaces them without a gap when a new image is rolled out, and
keeps the addresses, images and endpoints they use in order.  Most of this is
done by many concurrent tasks that take a lock several times with slow calls in
between.  The project models that logic and proves what it promises, for every
number of tasks, every interleaving and every outcome of every call.

`dafny verify dfyconfig.toml` checks all of it.

## How it is organised

* **The per-app protocol.**  `Handle` has the handle as an object and its
  critical sections as methods, each tied to a function on states.  `Rollover`
  cuts `ensure_running`, `set_rollout` / `update_app`, `stop` and `freeze` into
  steps, one per critical section and one per runtime or egress call, and lets a
  scheduler interleave any number of them.  `RolloverInvariant` is the inductive
  invariant; `RolloverTheorems` and `RolloverWindows` hold the main results,
  for runs from any app at rest.  `RolloverHarm` shows that the scheduling
  assumptions are exact: breaking one can always be followed by harm that a
  caller or an operator sees, respecting them never.  `RolloverLimits` follows
  two such runs from registration.  `Fleet` puts any number of apps on one
  allocator.
* **The egress layer.**  `Allocator` and `Endpoints` are the two locked objects,
  `Egress` the controller over them, `EgressProtocol` the same operations split
  at their lock boundaries.  What the egress layer asks of its callers
  (`EgressProtocol.Fresh`) is that an endpoint is only allocated under a name
  that has none, that is not being given one, and that no startup claim is left
  for: `Fleet.AllocatesOnlyFreshIds`, `Fleet.AllocatesAlone` and `Boot.Resolve`
  prove the three.
* **One operation from start to end.**  `AppHost` has the lifecycle operations as
  methods over handle, runtime and egress objects.  `RolloverRuns` has the same
  operations as runs of the machine in which no other task moves, for every
  answer of every call, and `HostLink` proves that the two agree.  `Boot` builds crash recovery on `AppHost`, and `Restart` proves
  that what it leaves is a state from which all run results hold.
* **Images.**  `Singleflight` is the coalescing puller, `Extract` the publication
  of an image directory under races, crashes and removals that break off,
  `ImageStore` the startup sweep.
  `DigestProtocol` is the rollout history and the digest cache.
* **Smaller exact cores.**  `Allowlist`, `EnvMerge`, `Loops`, `DeployKey`.

The scheduling assumptions of `Rollover.Disciplined` are conditions on the state
in which a step is about to be taken: stop does not begin in Starting; the app is
not frozen while a task that thawed it has yet to commit that, or is about to
thaw the other slot and a container is there or may still come; a resume
succeeds; and a rollover does not pass the gate while another one is not over.

## Where code and documentation differ

The model follows the code.  Each of these is stated by a lemma or contract.

* `stop` is documented to interrupt a cold start (crates/bugpot-core/src/handle.rs:375-379),
  but `finish_start` overwrites its result (`RolloverLimits.StopDuringStartRevivesDeadApp`).
* A second rollout is documented to conflict with one in flight
  (crates/bugpot-core/src/handle.rs:363-367), but the tail of the first runs in
  state Running and is not protected (`RolloverLimits.RolloverDuringDrainLosesEndpoint`).
* A failed resume reports Stopped with container and endpoint still there
  (`AppHost.Host.TryEnsureRunning`).  The next start takes the paused container
  for stale and launches over it, and the old address is out of use from then on
  (`RolloverRuns.StartOverLeftover`).
* The guard of the allocator's `release` lets the network and the broadcast
  address into the free set (`Allocator.ReleaseStaysInPool`).
* `fs_component` replaces every colon, not the first as the scan's comment says
  (crates/bugpot-runtime/src/runtime.rs:628-631); `ImageStore.ScanRoundTrip` says
  when that matters.
* A published digest that does not load is called impossible
  (crates/bugpot-runtime/src/image.rs:268-272); it happens after a removal that
  broke off with the marker gone.  With the marker in place such a directory
  loads, although something of it is missing (`Extract.DamagedImageLoads`,
  `Extract.DamageLoadsExactly`).
* Pulls are keyed by reference, not by digest as the comment on `pull` says
  (crates/bugpot-runtime/src/image.rs:158-161).
* "User wins" is not unconditional for environment keys that contain `=`
  (`EnvMerge.UserWinsIffNoClash`).
* The pressure loop evicts at most one app per reading, not several per tick
  (`Loops.MemoryPressureLoop`).
* Saturating the length field does not keep oversized names apart
  (`DeployKey.LongNameCollides`).

## Model

| member | source | states |
|---|---|---|
| RolloverHarm.StepExact | crates/bugpot-core/src/ops/rollout.rs:191-350 | from any state of the protocol, a step can be continued, by steps that respect the scheduling assumptions, to a request answered with an address nothing serves or to an idle app with something left behind, if and only if the step breaks one of the four assumptions |
| RolloverHarm.StopDuringStartHarms | crates/bugpot-core/src/handle.rs:341-347 | whatever a start has come to, a stop that begins then can be followed by a request that is sent to a container already torn down |
| RolloverHarm.FreezeDuringThawHarms | crates/bugpot-core/src/ops/rollout.rs:203-215 | a freeze that a thaw does not see can be followed by a request sent to a paused container |
| RolloverHarm.FailedResumeHarms | crates/bugpot-core/src/ops/lifecycle.rs:266-275 | after a failed resume every operation can complete with the app Stopped and its container still there |
| RolloverHarm.SecondRolloverHarms | crates/bugpot-core/src/ops/rollout.rs:217-237 | whatever the earlier rollover has come to, one that enters inside its tail can be followed by a request to a slot that one of the two has torn down |
| RolloverHarm.InvIsHarmless | crates/bugpot-core/src/ops/rollout.rs:191-350 | from a state of the protocol no run that respects the assumptions leads to visible harm |
| RolloverTheorems.ReadyIsLive | crates/bugpot-core/src/handle.rs:303-314 | in every disciplined run of any number of tasks from an app at rest, a request that is answered `Ready` gets the address of a started, unpaused container whose endpoint is registered |
| RolloverTheorems.OwnershipByState | crates/bugpot-core/src/ops/lifecycle.rs:47-77 | the state is Starting (Stopping) exactly when some one task owns the start or resume (the teardown), and there is never a second owner or a second rollover |
| RolloverTheorems.RollingOverOwnership | crates/bugpot-core/src/ops/rollout.rs:217-237 | in runs without stop, RollingOver holds exactly while one single task is between entry and switch or rollback |
| RolloverTheorems.AddressesAccounted | crates/bugpot-core/src/ops/lifecycle.rs:90-138 | every address an app took is either held by exactly one of its endpoints or went back exactly once, at every step |
| RolloverTheorems.SettledWhenIdle | crates/bugpot-core/src/handle.rs:284-296 | when all operations have completed, whatever failed, what exists is what `live_container_ids` says under the address in the state, the app is at rest again, and its slot has changed exactly if an odd number of rollovers switched |
| RolloverTheorems.SettledRests | crates/bugpot-core/src/handle.rs:284-296 | any settled app without operations in flight is a state from which the run results hold |
| RolloverTheorems.AllocatesOnlyVacantSlots | crates/bugpot-core/src/ops/rollout.rs:360-368 | an endpoint is only ever allocated for a slot that has neither container nor endpoint |
| RolloverWindows.GateOpensWindow | crates/bugpot-core/src/ops/rollout.rs:217-237 | the gate step is what opens the window of a rollover, from the running app to `RollingOver` with the same address |
| RolloverWindows.ZeroGap | crates/bugpot-core/src/ops/rollout.rs:191-350 | from entry to the end of the from-slot teardown, with any number of requests and deployments in between, every claim is Ready at a live container: the old address before the switch and after a failure, the new one after the switch |
| RolloverWindows.FailedRolloverRestores | crates/bugpot-core/src/ops/rollout.rs:321-347 | a rollover that ends without switching restores state, slot, containers, endpoints and the free set exactly |
| RolloverWindows.SwitchesExactly | crates/bugpot-core/src/ops/rollout.rs:321-396 | a rollover among any number of requests: if none of its phases fails it switches once, to the other slot, and if any fails (the readiness probe included) it ends with state, slot, containers, endpoints and free set as at entry |
| RolloverWindows.LadderReportsExactly | crates/bugpot-core/src/ops/rollout.rs:360-396 | for a start or a rollover, in any interleaving with anything: the ladder reports a container if and only if no phase of it failed |
| RolloverWindows.StopDuringRolloverLeavesNothing | crates/bugpot-core/src/ops/lifecycle.rs:319-361 | one rollover against one stop that begins anywhere after entry, in every interleaving and with every outcome: Stopped, both slots empty, every address returned exactly once although both tasks release the same slot |
| RolloverLimits.StopDuringStartRevivesDeadApp | crates/bugpot-core/src/handle.rs:341-347 | from registration, with any address: a stop during the first start leaves the app Running at an address that is free and that nothing serves |
| RolloverLimits.RolloverDuringDrainLosesEndpoint | crates/bugpot-core/src/ops/rollout.rs:308-311 | from registration, with any three addresses: a second rollover that enters while the first drains loses an address for good and serves requests at one the allocator may hand out again |
| RolloverTheorems.InitRests | crates/bugpot-core/src/handle.rs:423-443 | a freshly registered app is at rest |
| RolloverRuns.StartAlone | crates/bugpot-core/src/ops/lifecycle.rs:47-138 | a start left to itself, whatever its calls answer and whatever is left in the slot: one container and its endpoint, or what a failed ladder leaves |
| RolloverRuns.StartOverLeftover | crates/bugpot-runtime/src/runtime.rs:243-304 | after a failed resume, a start that succeeds launches over the paused container, and the address of the old endpoint is neither free nor held any more |
| RolloverRuns.StartOverRunning | crates/bugpot-runtime/src/runtime.rs:243-251 | over a running container no start succeeds, and the container stays |
| RolloverRuns.ResumeAlone | crates/bugpot-core/src/ops/lifecycle.rs:266-275 | a request on a frozen app thaws it, or leaves it Stopped with everything still there, whether the freezer or the container is at fault |
| RolloverRuns.ResumeWithoutContainer | crates/bugpot-core/src/ops/lifecycle.rs:266-275 | without its container a frozen app is neither resumed nor replaced, whatever the calls answer |
| RolloverRuns.RequestReady | crates/bugpot-core/src/handle.rs:303-314 | a request on an app that serves is over at once and changes nothing |
| RolloverRuns.RequestWaits | crates/bugpot-core/src/ops/lifecycle.rs:47-60 | a request on an app that somebody else starts or stops stays where it is and changes nothing |
| RolloverRuns.DeployRefused | crates/bugpot-core/src/ops/rollout.rs:99-131 | a deployment of a busy app, or one whose pull fails, changes nothing |
| RolloverRuns.DeployStopped | crates/bugpot-core/src/ops/rollout.rs:163-185 | a deployment of a stopped app is a start |
| RolloverRuns.DeployRunning | crates/bugpot-core/src/ops/rollout.rs:191-350 | a deployment of a running app ends on the other slot with the old side removed, or, as soon as one phase fails, exactly where it began |
| RolloverRuns.DeployFrozen | crates/bugpot-core/src/ops/rollout.rs:191-350 | a deployment of a frozen app thaws it and replaces it, or leaves it alone when it cannot be thawed |
| RolloverRuns.GateConflicts | crates/bugpot-core/src/ops/rollout.rs:221-237 | a deployment that meets a busy or frozen app at the gate gives up without a trace |
| RolloverRuns.StopAlone | crates/bugpot-core/src/ops/lifecycle.rs:319-361 | an uninterrupted stop empties every slot the state answers for |
| HostLink.StartAgrees | crates/bugpot-core/src/ops/lifecycle.rs:47-138 | whatever its calls answer, a start on the machine ends as the contract of the start on the real objects says: Running with one container at the given address, or Stopped with nothing |
| HostLink.ResumeAgrees | crates/bugpot-core/src/ops/lifecycle.rs:266-275 | the same for a request on a frozen app |
| HostLink.DeployAgrees | crates/bugpot-core/src/ops/rollout.rs:99-350 | the same for a deployment of a running, frozen or stopped app: started, replaced, thawed only, or untouched, by the answers of its calls |
| HostLink.FreezeAgrees | crates/bugpot-core/src/ops/lifecycle.rs:281-317 | the same for a freeze |
| HostLink.StopAgrees | crates/bugpot-core/src/ops/lifecycle.rs:319-361 | the same for a stop, in any state |
| HostLink.SettledAgrees | crates/bugpot-core/src/handle.rs:284-296 | an app settled on the real objects is settled in the machine |
| RolloverInvariant.StepKeeps | crates/bugpot-core/src/ops/rollout.rs:244-350 | every disciplined step of every task keeps the inductive invariant |
| RolloverInvariant.StepBalances | crates/bugpot-egress/src/lib.rs:475-485 | every step of every task keeps the count of taken and returned addresses in balance with what is held |
| RolloverInvariant.BuildsOnVacantSide | crates/bugpot-core/src/ops/rollout.rs:360-396 | the start ladder finds its slot empty |
| Fleet.AllocatesOnlyFreshIds | crates/bugpot-egress/src/lib.rs:390-428 | over any set of apps at rest and any interleaving from there, an endpoint is only allocated under a container id that no app has an endpoint for |
| Fleet.AllocatesAlone | crates/bugpot-egress/src/lib.rs:390-428 | no two allocations in flight, of any apps, are under the same container id |
| Fleet.AddressesHaveOneOwner | crates/bugpot-egress/src/allocator.rs:20-24 | on the whole host every pool address is free or registered under exactly one container id |
| Fleet.FreshHostRests | crates/bugpot-egress/src/allocator.rs:27-43 | a host with freshly registered apps and the whole pool free is at rest |
| Fleet.HostRunKeeps | crates/bugpot-core/src/ops/rollout.rs:191-350 | the host invariant (every app in order, owners distinct, pool covered) survives every disciplined run of all apps |
| Fleet.StepTrades | crates/bugpot-egress/src/lib.rs:475-485 | a step of one app only exchanges addresses between that app and the free set |
| Handle.ContainerIdInjective | crates/bugpot-core/src/handle.rs:70-72 | container ids are equal exactly for the same app and the same slot |
| Handle.HandleInner.ClaimStartSlot | crates/bugpot-core/src/handle.rs:303-335 | what each state answers and becomes; ownership is granted exactly when the state moves, and then later claims coalesce |
| Handle.HandleInner.CommitThaw | crates/bugpot-core/src/ops/rollout.rs:212-215 | only a state that is still Frozen becomes Running |
| Handle.HandleInner.EnterRollingOver | crates/bugpot-core/src/ops/rollout.rs:221-237 | the gate: cold start exactly for a stopped app, blue-green exactly for a running one, conflict otherwise, and no request sees a different address across it |
| Handle.HandleInner.BeginStop | crates/bugpot-core/src/ops/lifecycle.rs:325-333 | the snapshot of slots and the move to Stopping are one section; nothing happens when there is nothing to stop |
| Handle.HandleInner.RecordRollout | crates/bugpot-core/src/ops/rollout.rs:459-466 | the loop leaves the newest two entries of any loaded history plus the new one, and the digest moves with it |
| AppHost.Host.BuildContainer | crates/bugpot-core/src/ops/rollout.rs:360-396 | the start ladder: success needs every phase and a free address; each failure leaves containers, endpoints and free set untouched |
| AppHost.Host.TryEnsureRunning | crates/bugpot-core/src/ops/lifecycle.rs:47-77 | one turn of the loop: an app that is starting or stopping gets no answer and is left alone, a serving one is answered, a stopped one started exactly if every phase succeeds and an address is free; a settled app stays settled exactly unless its resume fails |
| AppHost.Host.StartOrResume | crates/bugpot-core/src/ops/lifecycle.rs:61-68 | the owner of a start resumes or starts: success leaves the app settled as Running, failure leaves everything outside the state as it was |
| AppHost.Host.EnterRollingOver | crates/bugpot-core/src/ops/rollout.rs:191-237 | a frozen app is thawed and passes the gate as a running one, with its container serving and the other slot empty; a stopped one is a cold start; a failed thaw or a conflict changes nothing |
| AppHost.Host.Replace | crates/bugpot-core/src/ops/rollout.rs:244-350 | the rollover of a settled app from the gate on leaves it settled: on the other slot exactly if every phase succeeds and an address is free, else as before |
| AppHost.Host.ApplyChange | crates/bugpot-core/src/ops/rollout.rs:163-185 | a deployment by state: started, replaced or refused, with the exact condition of success and what exactly is left otherwise |
| AppHost.Host.DoBlueGreen | crates/bugpot-core/src/ops/rollout.rs:244-350 | success exactly when all phases succeed in RollingOver with an address free, and then one container on the other slot; otherwise everything outside the state is exactly as before |
| AppHost.Host.TeardownContainers | crates/bugpot-core/src/ops/lifecycle.rs:351-361 | removes each named container and endpoint, in order, idempotently |
| AppHost.Host.Stop | crates/bugpot-core/src/ops/lifecycle.rs:319-343 | removes what the state answers for and ends Stopped; a no-op otherwise |
| AppHost.Host.Freeze | crates/bugpot-core/src/ops/lifecycle.rs:281-317 | pauses a running app without open upgrades, else changes nothing; a settled app stays settled |
| AppHost.SwitchSettles | crates/bugpot-core/src/ops/rollout.rs:293-311 | after launch of the new side and removal of the old one the app is settled on the other slot, and the free set has traded one address for the other |
| AppHost.StopSettles | crates/bugpot-core/src/ops/lifecycle.rs:319-343 | stopping a settled app, or one in mid-rollover, leaves it settled as Stopped |
| AppHost.StopUndoesStart | crates/bugpot-core/src/ops/lifecycle.rs:90-138 | a start and the stop after it cancel out, down to the free set |
| AppHost.HostView.RemovedUndoesLaunched | crates/bugpot-core/src/ops/lifecycle.rs:128-136 | tearing down a fresh container leaves no trace |
| AppHost.HostView.OthersUnaffected | crates/bugpot-core/src/handle.rs:70-72 | launching or removing one container is invisible to every other id |
| EgressProtocol.StepConserves | crates/bugpot-egress/src/lib.rs:388-495 | for a lock-delimited section of any operation at any point: every host address stays in exactly one of free, in transit, registered, claimed or lost if and only if the section does not overwrite a live endpoint |
| EgressProtocol.RunConserves | crates/bugpot-egress/src/lib.rs:388-495 | conservation over every interleaving of any number of allocations, releases, reattachments and cleanups, given that endpoints are only allocated under fresh names |
| EgressProtocol.NamesStayOk | crates/bugpot-egress/src/endpoints.rs:62-67 | with fresh names, no section of any interleaving can overwrite an endpoint |
| EgressProtocol.BootConserved | crates/bugpot-egress/src/lib.rs:377-386 | what startup discovers begins in a conserved state |
| EgressProtocol.QuietMeansNothingInTransit | crates/bugpot-egress/src/lib.rs:475-495 | when all operations have completed, free, registered and lost addresses partition the pool |
| EgressProtocol.LostExactly | crates/bugpot-egress/src/lib.rs:430-449 | over any interleaving an address is lost exactly if it was before or a reattachment of it failed |
| EgressProtocol.QuietMeansFree | crates/bugpot-egress/src/lib.rs:388-495 | when all operations have completed, an address is free exactly if it is in the pool, not registered, and its reattachment never failed |
| EgressProtocol.OperationsAgree | crates/bugpot-egress/src/lib.rs:390-495 | an allocation, a failed attach and a release, each with its sections in a row, do to the books what the controller promises |
| EgressProtocol.ClaimsAgree | crates/bugpot-egress/src/lib.rs:430-473 | a startup claim in a row with what follows: registered, given back, or lost |
| EgressProtocol.RegisterConserves | crates/bugpot-egress/src/endpoints.rs:62-67 | registering an endpoint conserves the pool exactly when its name is vacant |
| Egress.EgressControl.AllocateEndpoint | crates/bugpot-egress/src/lib.rs:390-428 | takes the lowest free address or leaves no trace; the books stay sound exactly when it failed or the name had no endpoint |
| Egress.EgressControl.ReleaseEndpoint | crates/bugpot-egress/src/lib.rs:475-495 | drops the endpoint and frees its address, or does nothing |
| Egress.EgressControl.ReattachEndpoint | crates/bugpot-egress/src/lib.rs:430-449 | registers a claimed address without touching the free set |
| Egress.EgressControl.CleanupOrphanEndpoint | crates/bugpot-egress/src/lib.rs:451-473 | returns a claimed address to the free set |
| Egress.DiscoverExistingEndpoints | crates/bugpot-egress/src/lib.rs:377-386 | every discovered address leaves the free set, and no other |
| Egress.EgressView.AddSound | crates/bugpot-egress/src/lib.rs:415-426 | adding an endpoint keeps the books sound exactly when its name is vacant |
| Egress.EgressView.DropUndoesAdd | crates/bugpot-egress/src/lib.rs:475-485 | release undoes allocate |
| Egress.EgressView.DropTwice | crates/bugpot-egress/src/lib.rs:476-478 | a second release of one name changes nothing |
| Egress.EgressView.DropCommutes | crates/bugpot-egress/src/lib.rs:475-485 | releases of different names commute and do not see each other |
| Endpoints.EndpointStore.Insert | crates/bugpot-egress/src/endpoints.rs:62-67 | the two indexes stay inverse exactly when nothing but the same endpoint is overwritten |
| Endpoints.EndpointStore.RemoveByName | crates/bugpot-egress/src/endpoints.rs:72-78 | neither the name nor its address is found any more, and every other endpoint still is, by both |
| Endpoints.EndpointStore.LookupByIp | crates/bugpot-egress/src/endpoints.rs:83-85 | finds exactly the endpoint registered with that address |
| Endpoints.Store.InsertCoherent | crates/bugpot-egress/src/endpoints.rs:58-67 | the indexes stay mutually inverse exactly when the insert overwrites nothing but its own entry |
| Endpoints.Store.AddressesDistinct | crates/bugpot-egress/src/endpoints.rs:62-85 | no two live endpoints share an address |
| Allocator.IpAllocator.constructor | crates/bugpot-egress/src/allocator.rs:27-43 | the loop over the subnet collects exactly the host addresses other than the bridge |
| Allocator.IpAllocator.Allocate | crates/bugpot-egress/src/allocator.rs:46-50 | the lowest free address, or an error exactly when there is none |
| Allocator.IpAllocator.Release | crates/bugpot-egress/src/allocator.rs:52-59 | the free set stays within the pool exactly for addresses other than the network and broadcast address |
| Allocator.IpAllocator.IsAllocated | crates/bugpot-egress/src/allocator.rs:69-71 | true exactly of pool addresses that were handed out and of the network and broadcast address |
| Allocator.ReleaseStaysInPool | crates/bugpot-egress/src/allocator.rs:52-59 | the guard keeps the free set within the pool exactly for addresses other than the network and broadcast address |
| Allocator.PoolExact | crates/bugpot-egress/src/allocator.rs:27-43 | the pool is every address of the block but the bridge, and in a block of more than two but the first and the last |
| Allocator.InitAllocator | crates/bugpot-egress/src/lib.rs:366-371 | refuses a foreign bridge or an empty pool; the probe leaves no trace |
| Singleflight.OnePullAtATime | crates/bugpot-runtime/src/image.rs:230-316 | for any number of callers, two callers that are both pulling pull the same reference exactly when they are one caller |
| Singleflight.WaiterGetsLeadersImage | crates/bugpot-runtime/src/image.rs:255-267 | a waiter that returns an image returns what the leader of its slot pulled for the same reference, with its completion marker on disk |
| Singleflight.LeaderGetsOwnPull | crates/bugpot-runtime/src/image.rs:239-251 | a leader returns its own pull, whose marker is on disk exactly when its directory had not lost it before |
| Singleflight.ErrsExactly | crates/bugpot-runtime/src/image.rs:161-284 | in any run, a caller that returns gives an error if and only if its own probe, its own pull or its own reading of an image on disk failed |
| Singleflight.NobodyFails | crates/bugpot-runtime/src/image.rs:161-284 | where every call succeeds no caller fails |
| Singleflight.WaiterIsServed | crates/bugpot-runtime/src/image.rs:255-267 | a waiter that wakes to an image on disk and can read it returns that image |
| Singleflight.CacheHit | crates/bugpot-runtime/src/image.rs:161-180 | a probe that finds its image on disk returns it without a pull or an entry |
| Singleflight.RetriesAreCharged | crates/bugpot-runtime/src/image.rs:268-281 | each caller retries at most as often as there are other callers of the same reference whose own pull failed, and takes at most three steps per retry plus six |
| Singleflight.SomebodyCanMove | crates/bugpot-runtime/src/image.rs:230-284 | as long as a caller has not returned, some caller can take a step |
| Singleflight.RunsAreShort | crates/bugpot-runtime/src/image.rs:230-284 | every schedule of n callers has at most n(3n + 7) steps |
| Singleflight.StepKeeps | crates/bugpot-runtime/src/image.rs:230-316 | every step of every caller keeps the slot, listing and caller invariants |
| Singleflight.Inflight.ClaimInflight | crates/bugpot-runtime/src/image.rs:289-307 | leads exactly when the reference was not listed, and is then listed; agrees with the step of the protocol |
| Extract.FinalLoadsWhole | crates/bugpot-runtime/src/image.rs:416-475 | whatever raced or crashed, a final directory loads with its configuration and all layers if and only if no removal broke off in it |
| Extract.DamageLoadsExactly | crates/bugpot-runtime/src/image.rs:516-528 | as long as nothing damaged loads, a step keeps it so if and only if it is not a removal that breaks off with the marker in place |
| Extract.MarkerFirstIsSafe | crates/bugpot-runtime/src/image.rs:463-475 | in runs in which every removal that breaks off has taken the marker, whatever loads is whole |
| Extract.DamagedImageLoads | crates/bugpot-runtime/src/image.rs:516-528 | a run in full: an image is published, a sweep breaks off after its layer, and it loads without it |
| Extract.SuccessLoadsWhole | crates/bugpot-runtime/src/image.rs:446-456 | the answer of an extraction that reports success loads whole if and only if its directory was not damaged |
| Extract.FailsExactly | crates/bugpot-runtime/src/image.rs:416-456 | among any other workers a worker fails exactly if a call of its own fails or its rename finds the directory already there, and it is done after its layers and seven more calls |
| Extract.ExtractAlone | crates/bugpot-runtime/src/image.rs:416-456 | an extraction left to itself, from any state of the disk: its layers and seven more calls later the image is published whole, or a directory already there stays as it is; its temporary directory is gone |
| Extract.LoserDefers | crates/bugpot-runtime/src/image.rs:446-453 | a worker that finds the image published when it looks removes its own copy and succeeds |
| Extract.DamageStays | crates/bugpot-runtime/src/image.rs:448-453 | no number of further pulls repairs a damaged directory |
| Extract.StepKeeps | crates/bugpot-runtime/src/image.rs:416-456 | every file-system call, crash and removal, whole or broken off anywhere, keeps the final-directory and worker invariants |
| ImageStore.ScanRoundTrip | crates/bugpot-runtime/src/runtime.rs:628-631 | scan and sweep agree on a directory name exactly when it has no colon |
| ImageStore.DigestRoundTrip | crates/bugpot-runtime/src/image.rs:66-68 | the digest itself is recovered exactly when its only colon comes before any underscore, or it has neither |
| ImageStore.LiveImageDigests | crates/bugpot-runtime/src/runtime.rs:599-634 | the scan collects the digests of exactly the directories that some bundle link points into, at any depth |
| ImageStore.Cache.Sweep | crates/bugpot-runtime/src/image.rs:494-532 | a directory goes exactly when it is incomplete or unused; a removal that breaks off leaves it with or without its marker; files and the rest stay as they were; the count is of the removed |
| ImageStore.Cache.GcUnusedImages | crates/bugpot-runtime/src/runtime.rs:636-640 | a complete directory without a colon stays if some link points into it; as long as no linked name has a colon, a directory whose removal does not break off stays exactly if it is complete and a link points into it |
| ImageStore.GcIsExact | crates/bugpot-runtime/src/runtime.rs:599-640 | a linked complete image without a colon is always kept; with no colon in any linked name, exactly the linked complete ones are |
| ImageStore.ColonIsNeverKept | crates/bugpot-runtime/src/runtime.rs:628-631 | a linked directory with a colon in its name would be swept |
| Boot.Recover | crates/bugpot-core/src/ops/boot.rs:29-205 | recovery from any crash, with any allowlist failing to parse and any container refusing removal: each discovered endpoint is registered under its own address with its handle Running or Frozen on that slot, or freed, or lost to a bad allowlist; and an app is settled exactly when its one survivor could be reattached or all of it removed |
| Restart.RecoveredHostRests | crates/bugpot-core/src/ops/boot.rs:29-205 | what recovery leaves is a host at rest: every app it could settle satisfies the premises of all run results, with distinct owners and all addresses but the lost ones free or held |
| Restart.RestartHost | crates/bugpot-core/src/ops/boot.rs:29-205 | recovery on the real objects ends in that state, with handles to match |
| Boot.Recovery.ReattachRunning | crates/bugpot-core/src/ops/boot.rs:29-78 | the loop over the handles: who is registered, what is still claimed, what is purged |
| Boot.Recovery.ReattachHandle | crates/bugpot-core/src/ops/boot.rs:36-76 | one turn of that loop |
| Boot.Recovery.PurgeBothSlots | crates/bugpot-core/src/ops/boot.rs:102-113 | both claims of an app in mid-rollover are given back and both containers gone unless their removal fails; registered endpoints untouched |
| Boot.Recovery.ReattachOne | crates/bugpot-core/src/ops/boot.rs:119-166 | the survivor is registered under its claimed address and state, slot and last use of the handle restored, and nothing else of it; with an allowlist that does not parse the claim is spent, the address lost and the handle left alone |
| Boot.Recovery.CleanupOrphans | crates/bugpot-core/src/ops/boot.rs:183-205 | every remaining claim is given back and its container removed unless that fails |
| Boot.RecoverySettles | crates/bugpot-core/src/ops/boot.rs:29-205 | after both passes an app is settled if and only if its survivor could be reattached, or everything of it removed |
| Boot.RecoveryByCase | crates/bugpot-core/src/ops/boot.rs:36-76 | what becomes of one slot of a known app, from what was found: back as it was, purged with the other, given up, or left alone |
| DigestProtocol.CacheMatchesHistory | crates/bugpot-core/src/ops/lifecycle.rs:180-223 | in every interleaving a cached digest was pulled from its own repository at the tag at the back of the history; an empty cache means nothing was recorded since load |
| DigestProtocol.StartIsNeverStale | crates/bugpot-core/src/ops/lifecycle.rs:180-223 | a start resolves to an image pulled from the repository of the spec it read, at a tag that was current no earlier than when it began |
| DigestProtocol.PinnedOnlyToOwnRepo | crates/bugpot-core/src/ops/lifecycle.rs:191-202 | a pinned pull carries a digest of the repository it asks for |
| DigestProtocol.StartAlone | crates/bugpot-core/src/ops/lifecycle.rs:180-223 | a start left to itself runs the cached digest exactly if it is of its own repository and the reference is plain, else what the registry answers, and fills an empty cache with it; a failed pull changes nothing |
| DigestProtocol.StartWithoutRollout | crates/bugpot-core/src/ops/lifecycle.rs:140-159 | an app without a rollout is not started, and nothing changes |
| DigestProtocol.RepoIsLastWritten | crates/bugpot-core/src/ops/crud.rs:140-155 | in any interleaving the repository that the next start reads is the one written last |
| DigestProtocol.RolloutAlone | crates/bugpot-core/src/ops/rollout.rs:99-148 | a rollout left to itself asks the registry whatever is cached, and ends with its tag at the back, the newest one before it and no other, and the answer cached for its repository |
| DigestProtocol.PinnedRefText | crates/bugpot-core/src/ops/lifecycle.rs:369-374 | the text of a pinned reference, from which reference and digest can be read back |
| DigestProtocol.HistoryIsNewest | crates/bugpot-core/src/ops/rollout.rs:459-466 | after any record the history is the last two of everything loaded and recorded |
| DigestProtocol.RecordKeeps | crates/bugpot-core/src/ops/rollout.rs:99-148 | recording a rollout keeps cache and history coherent |
| DigestProtocol.WriteBackKeeps | crates/bugpot-core/src/ops/lifecycle.rs:211-221 | the write-back of a start into an empty cache cannot follow a rollout it did not see |
| Allowlist.MatchesByLabels | crates/bugpot-egress/src/allowlist.rs:60-67 | a name is allowed exactly when some rule's labels are a suffix of the name's labels, a proper one for a wildcard |
| Allowlist.SubdomainIsLabelSuffix | crates/bugpot-egress/src/allowlist.rs:124-128 | the character test holds exactly for proper label suffixes |
| Allowlist.SpellingIsIrrelevant | crates/bugpot-egress/src/allowlist.rs:115-118 | names that are equal but for the case of ASCII letters get one answer, with any number of trailing dots |
| Allowlist.NormaliseExact | crates/bugpot-egress/src/allowlist.rs:115-118 | the normal form drops all trailing dots and no other character, and differs from the rest in letter case only, without capitals |
| Allowlist.RulesAreNormal | crates/bugpot-egress/src/allowlist.rs:99-108 | parsed rules are in normal form, and a wildcard is never empty |
| Allowlist.DomainEntryAdmits | crates/bugpot-egress/src/allowlist.rs:87-109 | from text to decision: a plain name, with any trailing dots, admits exactly itself and what ends in a dot and it, in any letter case |
| Allowlist.WildcardEntryAdmits | crates/bugpot-egress/src/allowlist.rs:98-102 | a star before a name admits exactly what ends in a dot and the name; a star before nothing but dots is refused |
| Allowlist.NameEntryAccepted | crates/bugpot-egress/src/allowlist.rs:87-109 | an entry that is no block, address or wildcard is accepted exactly if all its characters are letters, digits, dots, hyphens or underscores |
| Allowlist.TrimExact | crates/bugpot-egress/src/allowlist.rs:47-51 | trimming drops space at both ends and nothing but space |
| Allowlist.ListAdmits | crates/bugpot-egress/src/allowlist.rs:41-67 | an accepted list admits a name exactly when one of its trimmed entries does on its own |
| Allowlist.Parse | crates/bugpot-egress/src/allowlist.rs:41-55 | the loop yields one rule per non-blank entry in order, or refuses the list |
| Allowlist.ParseAccepts | crates/bugpot-egress/src/allowlist.rs:41-55 | the list is accepted exactly when every entry is blank or a rule |
| Allowlist.LabelsSplit | crates/bugpot-egress/src/allowlist.rs:124-128 | a dot separates labels and nothing else does |
| Allowlist.JoinLabels | crates/bugpot-egress/src/allowlist.rs:115-118 | a name is its labels, joined |
| EnvMerge.EnvLookup | crates/bugpot-runtime/src/spec.rs:161-188 | for keys without `=`, on the entries as text: the user's value once, else PORT once, else the default PATH, else the image's values; independent of the order of the user's map |
| EnvMerge.ImageEntriesKept | crates/bugpot-runtime/src/spec.rs:161-182 | all other image entries are kept in order and nothing else is added |
| EnvMerge.UserWinsIffNoClash | crates/bugpot-runtime/src/spec.rs:161-188 | for arbitrary keys: every user entry reaches the container under every iteration order exactly when no entry reads as a binding of another key |
| EnvMerge.ClashingMap | crates/bugpot-runtime/src/spec.rs:184-188 | a map that clashes, and an order of it in which a user entry is lost |
| EnvMerge.PlainKeysNeverClash | crates/bugpot-runtime/src/spec.rs:184-188 | keys without `=` never clash |
| EnvMerge.DeriveEnv | crates/bugpot-runtime/src/spec.rs:161-182 | the merging loop computes the specification function |
| EnvMerge.PushEnv | crates/bugpot-runtime/src/spec.rs:184-188 | the retain loop computes the specification function |
| Loops.MemoryPressureLoop | crates/bugpot-core/src/ops/loops.rs:48-87 | an eviction is attempted at a tick exactly when an earlier tick read below `lo` and since then every reading was below `hi` and every eviction found an app |
| Loops.EvictLruFrozen | crates/bugpot-core/src/ops/loops.rs:93-120 | stops the first of the least recently used frozen apps and changes nothing else of any app; false exactly when none is frozen |
| Loops.EvictionsFollowLastUse | crates/bugpot-core/src/ops/loops.rs:93-120 | repeated evictions follow last use, each app once, one fewer each time, until none is frozen |
| Loops.Account | crates/bugpot-core/src/ops/loops.rs:200-223 | the total emitted is the sum of the final samples of the maximal non-decreasing runs, where a stop ends a run |
| DeployKey.MacInputInjective | crates/bugpot-admin/src/deploy_key.rs:115-143 | the authenticated text determines name and repository, of any length, exactly when the name is shorter than 2^32 - 1 bytes |
| DeployKey.FittingNamesInjective | crates/bugpot-admin/src/deploy_key.rs:119-142 | for names shorter than 2^32 bytes, two texts are equal exactly when the pairs are |
| DeployKey.LongNameCollides | crates/bugpot-admin/src/deploy_key.rs:125-137 | a longer name always shares its text with another pair |
| DeployKey.Verify | crates/bugpot-admin/src/deploy_key.rs:98-113 | accepts exactly the prefix and 64 hexadecimal characters of either case that spell the pair's MAC |
| DeployKey.Derive | crates/bugpot-admin/src/deploy_key.rs:83-89 | what is derived for a pair is accepted for it by `Verify` |
| DeployKey.MacBytes | crates/bugpot-admin/src/deploy_key.rs:115-143 | the updates add up to tag, length-prefixed name and length-prefixed repository |
| DeployKey.TokenOpens | crates/bugpot-admin/src/deploy_key.rs:83-113 | a derived token opens a pair exactly when the two MACs are equal, so always its own |
| DeployKey.TokenIsBound | crates/bugpot-admin/src/deploy_key.rs:91-113 | unless the MAC collides on the two texts, a token opens its own pair only |
| DeployKey.DecodeSpells | crates/bugpot-admin/src/deploy_key.rs:108-110 | hexadecimal decoding yields a value exactly when the characters spell it |
| DeployKey.MacInputLayout | crates/bugpot-admin/src/deploy_key.rs:115-143 | the authenticated text byte by byte: tag, length of the name with its low byte first, name, length of the repository, repository |
| DeployKey.TokenLayout | crates/bugpot-admin/src/deploy_key.rs:83-89 | the token byte by byte: prefix and small hexadecimal digits, high half first |
| DeployKey.HexValueExact | crates/bugpot-admin/src/deploy_key.rs:108-110 | the characters with a value are the digits and both cases of a to f |

## Left out

- Rollover.Disciplined: results about whole runs assume it; `RolloverHarm.StepExact` shows that no clause can be relaxed, and `RolloverWindows` needs less.
- Rollover.Step: freeze is one step and `start_app` is one step; the source reads and writes in two sections around `freeze_app` without a second look, so a stop that falls in between is not represented.
- Rollover.Side: a start over a paused container replaces it; the source only removes its state directory, and what becomes of the frozen processes is not represented.
- Rollover.StopContainer: `stop_app` always removes the container; errors it logs are not represented outside recovery.
- Rollover: a container that dies by itself, cancellation of a future, liveness of `Notify` waiters and the identity of the `Notify` in Starting.
- Rollover: durations; the drain and the probes end at any time, with any outcome.
- Rollover.AllocateEndpoint: the address is any free one there; `Allocator.IpAllocator.Allocate` has the lowest.
- Fleet.Host: registering and removing apps; the set of apps is fixed in a run. An allocation is one step here; `EgressProtocol` splits it.
- EgressProtocol.Step: netns, veth and nft commands appear as one outcome; after a failed release they are left to the next startup.
- Endpoints.AllocatedApp: the layout plan and the parsed allowlist that travel with an endpoint.
- AppHost.Host.TryEnsureRunning: one turn of the loop, without waiting; the interleavings are in `Rollover`.
- AppHost.Host.BuildContainer: `do_start` and `build_to_slot` are one ladder, as in the source they differ only in where the container id comes from.
- Boot.Recovery.ReattachRunning: a second call does nothing in the source; here it is made once.
- Boot.Recover: discovered endpoints are assumed to have distinct addresses of the pool, as the previous process gave them out.
- Restart.HostAfter: apps that recovery could not settle are not part of the host it describes; the addresses they cost are.
- Singleflight: the protocol is a state machine, since its callers interleave; only the map sections also exist as methods on an object. Credentials, which a waiter shares with its leader, are not represented.
- Singleflight.FinishPull: completed cache entries are not removed while callers run, and other processes are not represented; a directory that is damaged but has its marker counts as done, as it does for the source.
- Extract: which file of a layer a broken-off removal took; a layer is there or not. A temporary directory whose name equals that of another worker's.
- ImageStore.LiveImageDigests: I/O errors, which end the scan in the source.
- ImageStore.Cache.Sweep: of a directory whose removal breaks off only the marker is seen; `Extract` has the rest.
- DigestProtocol: conflicts and failures after a rollout was recorded do not change history or cache and are not steps; the text of a pinned reference may combine an older tag with a newer digest, of which only the digest counts.
- Allowlist.ParseRule: parsers of address literals and blocks are parameters; direct-address matching is left out.
- Allowlist: names are sequences of characters rather than UTF-8 bytes; a suffix that matches as text begins at a character boundary, so the boundary test is the same.
- EnvMerge.EnvLookup: keys with `=` are outside it; `EnvMerge.UserWinsIffNoClash` covers them.
- Loops.EvictLruFrozen: the teardown between the two sections of the stop is in `AppHost.Host.Stop`.
- Loops.MemoryPressureLoop: whether an eviction would find an app is an input for each tick.
- DeployKey: the MAC (section 2 of RFC 2104) is an arbitrary function with 32-byte results; its strength and constant-time comparison are left out.
- Router, admin routes, CLI, metrics, DNS wire handling, TOML and JSON, seccomp and mounts, `/proc` parsers, tar extraction: foreign calls or plumbing.
- Spec validation, registration indexes, short interface names: true and easy.
