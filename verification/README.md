# ArcBox host-state protocols, verified

ArcBox's daemon keeps host-side state in step with virtual machines and containers: kernel
routes, port listeners, DNS names, guest workers, certificates, mounts and host tools. Other
actors change the same world at any moment, and most operations can be dropped at any await.
This project models those reconcilers and ownership protocols in Dafny and proves what they
keep in every run. `dafny verify dfyconfig.toml` checks all of it.

| file | part of the daemon |
|---|---|
| `Ipv4.dfy`, `RoutePlan.dfy`, `RouteReconciler.dfy`, `RouteGuard.dfy` | networks and pools; the pure route decisions with longest-prefix match; the reconciler against an interfering kernel table; the guard that keeps calling it |
| `Listeners.dfy`, `ListenerRuntime.dfy`, `PortKeys.dfy` | ownership of port listeners under cancellation; start, stop, stop-all and sandbox ports; the printed owner keys |
| `Forwarders.dfy` | the same ownership with one forwarder per owner |
| `LifecycleLocks.dfy` | the weak-reference lock table per container |
| `HostNetworkFence.dfy`, `HostReconciler.dfy` | generation-fenced listings; the loop that asks for them |
| `GuestWorkers.dfy` | supervised machine workers |
| `StatsHub.dfy` | the shared stats pump |
| `DnsRegistry.dfy`, `TlsSigner.dfy` | name ownership revisions; the signing session |
| `KubernetesLb.dfy`, `WebIndex.dfy`, `HttpsAccess.dfy` | loops that publish, drain and withdraw |
| `HostMount.dfy`, `HostTools.dfy` | the mount table; the tool installer |
| `Text.dfy`, `Lists.dfy`, `Wrappers.dfy` | string operations, duplicate-free lists, `Option` and `Result` |

How the parts are modelled:

- Sequential code with awaits is a class. An await either havocs what others may change (the
  route table, the registry) or records the state a dropped operation would leave
  (`suspended`). Loops are fed arbitrary scripts of what they meet, or nondeterministic answers.
- Protocols between tasks (locks, the fence, the stats hub) and the loops that race an operation
  against its interruption (Kubernetes ports, web index, HTTPS access) are step machines; their
  theorems quantify over every execution.
- Time, back-off, logging and progress reports are wake-ups or are absent. Kernel, VMM, agent,
  helper and network answers are nondeterministic. SHA-256 is any function into trimmed text;
  certificates and guest answers are opaque values.
- `quiet`, `steady`, `reachable` and `lasting` mark environments in which nothing else
  interferes, calls succeed, the helper answers, or listener tasks do not end by themselves;
  claims about undisturbed calls are conditional on them.

Where the code does less than its documentation says, the code is modelled, a concrete failing
case is given and the exact condition is proved:

- The helper documents that it removes a route only while it is still owned. Its preflight and
  its delete are separate, so a route replaced in between is deleted (`StaleDeleteRun`), exactly
  then (`Kernel.RemoveIfOwned`), and for custom pools only.
- Split mode is documented as sticky. The guard's own calls keep it, but a VM that starts has the
  mode re-derived from the table, which can add the preferred route again: for a custom pool by
  the guard's arrival setup (`ArrivalUndoesSplit`), for the default pool by a hook that runs
  beside the guard (`HookUndoesSplit`). Either asks for the preferred route exactly when its
  inspection shows none of the managed routes (`Guard.Run`, `Guard.Arrive`,
  `Kernel.InitializeRoute`).
- Restarting re-derives the route mode from the table. It differs from the running mode in one
  case (`RestartKeepsModeIff`); after `initialize` it never does (`InitializeIsRestartStable`).
- The fallback port forwarder reports success with no listener when every host address is
  unusable (`Forwarders.Fallback.Start`, `NothingPlannedIff`).
- A stop that was cancelled half way leaves a record that can later close another owner's
  listener on the freed address (`StaleRecordStopsAnotherOwner`, `StopSparesOthersIff`).
- Kubernetes ports are reported as the last listing left them, but retiring a VM's listeners does
  not touch the report. The recorded ports are always among those reported, and exactly those
  until a step takes some (`ReportIsTrueIff`). The status query checks that the VM is the live
  one, so it answers truly while that VM stays (`AnswersAreTrueWhileTheVmStays`); after a stop
  that was called off it can report a port that has no listener (`AnswerCanBeFalse`).
- `subscribe` reads the receiver count and attaches in two steps, and receivers drop outside
  the mutex, so a subscriber can be stranded (`SubscriberCanBeStranded`, `ServedThroughoutIff`).
- A lookup's revision is the larger of the owner's and the authority's, so a change of owner
  can go unseen (`ReplicaTakesOverUnseen`, `RevisionIdentifiesOwnerIff`).
- Mount lines are split at the first " (", so a mount point may contain none
  (`ParenthesisInMountPoint`, `LineRoundTripIff`).

## Model

| member | source | states |
|---|---|---|
| `Ipv4.ContainsIsMaskEquality` | common/arcbox-route/src/lib.rs:94-115 | an address lies in a network exactly when masking it by the network's prefix gives the network address |
| `Ipv4.NetFitsAddressSpace` | common/arcbox-route/src/lib.rs:54-82 | an aligned network of any prefix up to 32 lies inside the 32-bit address space |
| `Ipv4.OverlapsIffSharedAddress` | common/arcbox-route/src/lib.rs:100-106 | the one-mask overlap test holds exactly when the two networks share an address |
| `Ipv4.HalvesPartitionPool` | app/arcbox-core/src/route_reconciler.rs:26-44 | the two halves of every aligned pool of prefix at most 31 are valid, do not overflow, are disjoint, and together contain exactly the pool's addresses |
| `Ipv4.PoolAcceptedIff` | common/arcbox-constants/src/container_network.rs:44-75 | a container pool is accepted exactly when its prefix is 12 to 24, it is aligned, all its addresses are private and it shares none with a reserved guest network |
| `Ipv4.EndpointsDecidePrivacy` | common/arcbox-constants/src/container_network.rs:59-62 | for pools this narrow, checking the first and last address decides whether every address is private |
| `Ipv4.DefaultPoolIsAccepted` | common/arcbox-constants/src/container_network.rs:151-158 | the built-in pool passes its own validation |
| `RoutePlan.OverlapScanIsExact` | app/arcbox-core/src/route_reconciler.rs:192-208 | whatever order the table is listed in, the overlap scan reports something exactly when a foreign route overlaps the pool, and what it reports is one |
| `RoutePlan.NoOverlapMeansNoExternal` | app/arcbox-core/src/route_reconciler.rs:180-241 | for a custom pool, a check that finds no overlap leaves none of the three managed routes external |
| `RoutePlan.SettleKeepsEveryEntry` | app/arcbox-core/src/route_reconciler.rs:308-371 | an undisturbed reconciliation changes no existing entry and adds only direct bridge routes for managed networks |
| `RoutePlan.InitializeSucceedsIff` | app/arcbox-core/src/route_reconciler.rs:308-392 | undisturbed initialization succeeds exactly when no half is foreign (default pool) or no foreign route overlaps (custom pool) |
| `RoutePlan.FreshTableGetsPreferred` | app/arcbox-core/src/route_reconciler.rs:126-178 | on a table without managed routes and with nothing in the way, initialization installs exactly the preferred route |
| `RoutePlan.LongestMatchExists` | app/arcbox-core/src/route_reconciler.rs:308-371 | every address some entry contains has a longest match in the table |
| `RoutePlan.AddressServed` | app/arcbox-core/src/route_reconciler.rs:126-241 | with the pool or both halves owned and nothing more specific in the way, longest-prefix match sends the address to the bridge |
| `RoutePlan.SettledPoolIsServed` | app/arcbox-core/src/route_reconciler.rs:308-392 | after a successful undisturbed reconciliation every pool address leaves through the bridge: default pool against any routes no more specific than the halves, custom pool against the whole table |
| `RoutePlan.SettledIsHealthy` | app/arcbox-core/src/route_reconciler.rs:154-178 | the table reached shows no external half, and the routes its mode stands for owned |
| `RoutePlan.SettleIsIdempotent` | app/arcbox-core/src/route_reconciler.rs:154-178 | reconciling again in the reached mode changes nothing |
| `RoutePlan.RestartKeepsModeIff` | app/arcbox-core/src/route_reconciler.rs:126-144 | re-deriving the mode from the table after a restart gives the running mode, and changes nothing, except exactly when preferred mode ran unblocked over a table whose halves are both owned too |
| `RoutePlan.InitializeIsRestartStable` | app/arcbox-core/src/route_reconciler.rs:385-392 | after any successful initialization, initializing again picks the same mode and changes nothing |
| `RoutePlan.InitializedModeIsVisible` | app/arcbox-core/src/route_reconciler.rs:126-178 | the mode a successful initialization reports is split exactly when the table it leaves holds both halves |
| `RoutePlan.CutSplitIsCompletedIff` | app/arcbox-core/src/route_reconciler.rs:126-144 | a split cut short between its two adds is completed by the next initialization exactly when the pool's own route is not ours or the upper half was there already |
| `RouteReconciler.Kernel.Overlapping` | common/arcbox-route/src/lib.rs:362-380 | the listing holds exactly the non-default entries that overlap the pool |
| `RouteReconciler.Kernel.InspectRoutes` | app/arcbox-core/src/route_reconciler.rs:210-251 | one atomic read: the snapshot describes that table, and for a custom pool the read fails when a foreign route overlaps |
| `RouteReconciler.Kernel.AddRoute` | app/arcbox-core/src/route_reconciler.rs:253-264 | an add creates at most the one entry it names, never replaces one, and says truly whether it was absent; a lost answer may still have been carried out |
| `RouteReconciler.Kernel.RemoveIfOwned` | app/arcbox-helper/src/server/mutations/route.rs:25-40 | success leaves the entry absent; the call is unsafe exactly when the preflight read our own entry, the delete meets somebody else's and is carried out; request and answer may be lost |
| `RouteReconciler.StaleDeleteRun` | app/arcbox-helper/src/server/mutations/route.rs:25-40 | a run of the removal, for any custom pool, whose preflight reads our own entry and whose delete removes somebody else's route |
| `RouteReconciler.Kernel.EnsureHalf` | app/arcbox-core/src/route_reconciler.rs:289-304 | one half: owned already, added, or found owned on re-inspection after losing the race; otherwise an error |
| `RouteReconciler.Kernel.EnsureSplitRoutes` | app/arcbox-core/src/route_reconciler.rs:266-306 | success means that each half was seen or made a direct bridge route during the call; the preferred route is never added |
| `RouteReconciler.Kernel.AddPreferredRoute` | app/arcbox-core/src/route_reconciler.rs:327-347 | when the check after adding the preferred route fails and the cleanup call succeeds, the added route is gone again when the error is returned; for the default pool every step is safe in every interleaving |
| `RouteReconciler.Kernel.CheckAdded` | app/arcbox-core/src/route_reconciler.rs:330-346 | the re-check of a custom pool's added route ends in kept, rolled back or rollback failed |
| `RouteReconciler.Kernel.TryPreferred` | app/arcbox-core/src/route_reconciler.rs:327-359 | a lost add race ends in preferred mode only if a fresh read shows the route owned; for the default pool every step is safe |
| `RouteReconciler.Kernel.CarryOut` | app/arcbox-core/src/route_reconciler.rs:319-371 | the planned action is safe under any interference (a stale delete takes a custom pool), asks for the preferred route exactly when planned, and undisturbed reaches exactly the reference outcome |
| `RouteReconciler.Kernel.ReconcileWithSnapshot` | app/arcbox-core/src/route_reconciler.rs:308-371 | under arbitrary interference no foreign entry is touched, for the default pool without exception and for a custom pool but for a stale delete; split mode never reports preferred mode nor asks for the preferred route; a reported mode is backed by routes seen during the call; undisturbed, the result is the reference outcome |
| `RouteReconciler.Kernel.ReconcileRoute` | app/arcbox-core/src/route_reconciler.rs:374-382 | the same, with its own inspection first |
| `RouteReconciler.Kernel.InitializeRoute` | app/arcbox-core/src/route_reconciler.rs:385-392 | the same, with the mode taken from that inspection; the preferred route is asked for exactly when it shows none of the managed routes; undisturbed success leaves every pool address served by the bridge |
| `RouteGuard.Guard.Arrive` | app/arcbox-daemon/src/services/mod.rs:558-621 | the setup at a VM arrival, custom pools only: every step safe; the preferred route is asked for exactly when an inspection shows none of the managed routes |
| `RouteGuard.Guard.Reconcile` | app/arcbox-daemon/src/services/mod.rs:404-446 | in a remembered split mode for this bridge preferred mode is never reported and the preferred route never asked for; otherwise an initialization; a mode is remembered exactly if it was reached and recorded, and a custom pool's route that cannot be recorded ends the guard |
| `RouteGuard.Guard.CleanUp` | app/arcbox-daemon/src/startup/container_network_lease.rs:107-128 | removes at most a custom pool's own recorded route, and asks for none |
| `RouteGuard.Guard.Act` | app/arcbox-daemon/src/services/mod.rs:382-469 | reconcile, tear down or wait as discovery says, with the cleanup on a conflict; what is remembered afterwards |
| `RouteGuard.Guard.TakeRound` | app/arcbox-daemon/src/services/mod.rs:322-469 | one turn: arrival, then the guard's own move; every step safe; in a remembered split mode only the arrival can ask for the preferred route |
| `RouteGuard.Guard.Run` | app/arcbox-daemon/src/services/mod.rs:304-470 | over any rounds and any interference every step is safe (for the default pool, and for a custom pool but for a stale delete); after a split report no preferred mode is reported while the guard stays on the bridge, its own calls never ask for the preferred route, and an arrival does so exactly when its inspection shows none of the managed routes |
| `RouteGuard.ArrivalUndoesSplit` | app/arcbox-daemon/src/services/mod.rs:362-369 | a run, for any custom pool, in which an arrival adds the preferred route after split mode was reported, while the guard goes on reporting split mode |
| `RouteGuard.HookUndoesSplit` | app/arcbox-core/src/route_reconciler.rs:509-549 | the same for the default pool: a run in which the VM-start hook adds the preferred route beside a guard that reports split mode before and after |
| `PortKeys.RoundTripIff` | app/arcbox-core/src/runtime.rs:1958-1971 | a sandbox port key parses back to its sandbox and port exactly when the id and protocol are non-empty and the protocol has no colon; the id may hold colons and slashes |
| `PortKeys.KeysAreInjective` | app/arcbox-core/src/runtime.rs:1958-1960 | two exposures with colon-free protocols never share a key |
| `Listeners.StoppingKeepsInv` | common/arcbox-proxy/src/inbound_relay.rs:455-474 | while a listener is being stopped it stays recorded |
| `Listeners.RemovedKeepsInv` | common/arcbox-proxy/src/inbound_relay.rs:455-474 | removing listeners leaves every live one recorded |
| `Listeners.SpontaneousExitKeepsInv` | common/arcbox-proxy/src/inbound_relay.rs:510-555 | a listener task that ends by itself breaks nothing |
| `Listeners.StoppedKeepsInv` | app/arcbox-core/src/runtime/inbound_listeners.rs:81-109 | stopping an owner leaves every other live listener recorded |
| `Listeners.AddedRuleKeepsInv` | app/arcbox-core/src/runtime.rs:1568-1612 | a listener bound and recorded with no await in between is accounted for |
| `Listeners.AdoptedKeepsInv` | app/arcbox-core/src/runtime/inbound_listeners.rs:44-79 | taking over a new VM's listener manager keeps every live listener accounted for, the old ones by the retiring manager |
| `Listeners.RetiredKeepsInv` | app/arcbox-core/src/runtime/inbound_listeners.rs:28-34 | retiring the replaced manager keeps every live listener accounted for |
| `Listeners.PartlyRetiredKeepsInv` | app/arcbox-core/src/runtime/inbound_listeners.rs:28-34 | so does having stopped only some of its listeners |
| `Listeners.WithdrawnKeepsInv` | app/arcbox-core/src/runtime/host_network/retirement.rs:55-59 | a machine's emptied slot and the records on the machine can go at once: every live listener stays recorded, and none is left of that manager |
| `Listeners.StopSparesOthersIff` | app/arcbox-core/src/runtime/inbound_listeners.rs:81-109 | stopping one owner leaves another owner's listeners alone exactly when the two records on that machine share no bound address |
| `Listeners.StaleRecordStopsAnotherOwner` | app/arcbox-core/src/runtime/inbound_listeners.rs:102-108 | a stop dropped at a later rule's await leaves a record whose later cleanup closes another owner's listener on the address the stop had freed |
| `Listeners.StoppedSnoc` | app/arcbox-core/src/runtime.rs:1858-1861 | stopping owners one by one is stopping exactly what they recorded, in any order |
| `Listeners.EmptySlotsHoldNothing` | app/arcbox-core/src/runtime.rs:2220-2231 | when every slot is empty nothing is bound, so the maps may be cleared |
| `ListenerRuntime.PlanRules` | app/arcbox-core/src/runtime.rs:1523-1543 | the planned rules are exactly those of the usable bindings, without duplicates |
| `ListenerRuntime.Runtime.RemoveRule` | common/arcbox-proxy/src/inbound_relay.rs:455-474 | the socket is gone and forgotten afterwards; the one await in between leaves it recorded and told to stop |
| `ListenerRuntime.Runtime.StopInboundRules` | app/arcbox-core/src/runtime/inbound_listeners.rs:81-109 | stops exactly one owner's listeners; refused exactly when the record is for another machine or VM incarnation; it can be dropped at each rule, with the earlier ones gone and the record whole; every await leaves live listeners recorded |
| `ListenerRuntime.Runtime.FinishRetiring` | app/arcbox-core/src/runtime/inbound_listeners.rs:28-34 | everything the replaced manager held is stopped |
| `ListenerRuntime.Runtime.Adopt` | app/arcbox-core/src/runtime/inbound_listeners.rs:44-79 | the offered manager takes the slot, the machine's records go and the old manager is retired; nothing happens without an offer |
| `ListenerRuntime.Runtime.AddRecorded` | common/arcbox-proxy/src/inbound_relay.rs:395-452 | binding fails on an address any listener has; success records the listener in the same step |
| `ListenerRuntime.Runtime.AlreadyServing` | app/arcbox-core/src/runtime.rs:1544-1561 | the shortcut is taken only when the installed rules are the planned ones, on this VM, all listening |
| `ListenerRuntime.Runtime.StartInbound` | app/arcbox-core/src/runtime.rs:1516-1628 | success leaves recorded rules, all wanted and each bound, and where checks pass and free addresses bind every usable binding's address is taken; other owners' records are unchanged |
| `ListenerRuntime.Runtime.AddPlanned` | app/arcbox-core/src/runtime.rs:1566-1627 | the binding loop: true only with recorded rules, each bound, and each at work unless its task ended by itself |
| `ListenerRuntime.Runtime.StartPortForwarding` | app/arcbox-core/src/runtime.rs:1482-1513 | success leaves the owner recorded rules, and where listener tasks last a listener at work; else exactly unless all of them ended by themselves during the call; a failure whose cleanup succeeds leaves the owner nothing; at every await every live listener is recorded |
| `ListenerRuntime.Runtime.StartRaw` | app/arcbox-core/src/runtime.rs:1443-1466 | an empty binding list stops the owner and succeeds |
| `ListenerRuntime.Runtime.StopAll` | app/arcbox-core/src/runtime.rs:2220-2231 | ends with no record, no manager and no bound socket; every await in between leaves live listeners recorded |
| `ListenerRuntime.Runtime.StopSlot` | app/arcbox-core/src/runtime/inbound_listeners.rs:36-39 | empties one machine's slot and no other |
| `ListenerRuntime.Runtime.ExposeSandboxPort` | app/arcbox-core/src/runtime.rs:1739-1773 | a loopback listener under the exposure's key; the index is extended last and only on success |
| `ListenerRuntime.Runtime.UnexposeSandboxPort` | app/arcbox-core/src/runtime.rs:1776-1784 | exactly one exposure is stopped and dropped from the index |
| `ListenerRuntime.Runtime.RemoveSandboxPorts` | app/arcbox-core/src/runtime.rs:1846-1863 | every listener of the sandbox is stopped, also one exposed but not yet indexed, and nothing else |
| `ListenerRuntime.Runtime.ClearSandboxes` | app/arcbox-core/src/runtime.rs:1918-1932 | no owner key that parses as a sandbox's is left, and nothing else is stopped |
| `ListenerRuntime.Runtime.ClearIncarnation` | app/arcbox-core/src/runtime/host_network/retirement.rs:42-73 | the machine's listeners and the records on it go, unless they are those of the VM to keep; the sandbox index keeps exactly the keys that still own a listener; every await leaves live listeners recorded |
| `ListenerRuntime.Runtime.Perform` | app/arcbox-core/src/runtime.rs:1431-1784 | each operation, completed or dropped at any of its awaits, leaves every live listener recorded |
| `ListenerRuntime.Runtime.Run` | app/arcbox-core/src/runtime.rs:1431-1784 | so does every sequence of operations, each completed or cancelled anywhere |
| `Forwarders.NothingPlannedIff` | app/arcbox-core/src/runtime.rs:1641-1669 | a fallback start asks for no listener exactly when none of its host addresses is usable |
| `Forwarders.ShutSparesOthers` | virt/arcbox-net/src/port_forward.rs:141-159 | stopping one owner's forwarder touches no other owner's listeners |
| `Forwarders.Fallback.Stop` | virt/arcbox-net/src/port_forward.rs:141-159 | every listener of the owner is closed, and forgotten only once its task has ended |
| `Forwarders.Fallback.StartOne` | virt/arcbox-net/src/port_forward.rs:162-222 | fails on an address the forwarder already has; a bound listener is recorded in the same step |
| `Forwarders.Fallback.StartForwarder` | virt/arcbox-net/src/port_forward.rs:117-138 | success means that every rule of the forwarder is bound, and at work where listener tasks last |
| `Forwarders.Fallback.PlanRules` | app/arcbox-core/src/runtime.rs:1641-1669 | the forwarder's rules are exactly those of the usable bindings, without duplicates |
| `Forwarders.Fallback.Install` | app/arcbox-core/src/runtime.rs:1671-1686 | the owner ends up with a forwarder for exactly the planned rules, or with no live listener |
| `Forwarders.Fallback.Start` | app/arcbox-core/src/runtime.rs:1632-1703 | success binds all usable bindings, so it leaves a bound listener exactly when one host address is usable, and all at work where listener tasks last; in a steady environment a start whose addresses are all unusable succeeds with no listener |
| `Forwarders.Fallback.StopOwner` | app/arcbox-core/src/runtime.rs:1720-1730 | the owner has no forwarder and no listener; others keep theirs |
| `Forwarders.Fallback.StopAll` | app/arcbox-core/src/runtime.rs:2233-2243 | nothing is recorded and nothing is bound |
| `Forwarders.Fallback.Perform` | app/arcbox-core/src/runtime.rs:1632-1730 | each operation, completed or dropped at any of its awaits, leaves every listener recorded |
| `Forwarders.Fallback.Run` | app/arcbox-core/src/runtime.rs:1632-1730 | so does every sequence of operations, each completed or cancelled anywhere |
| `LifecycleLocks.StepKeepsTable` | app/arcbox-core/src/runtime.rs:443-459 | a lock that is waited for or held stays the one its id maps to, whatever is pruned meanwhile |
| `LifecycleLocks.StepKeepsInv` | app/arcbox-core/src/runtime.rs:443-459 | every step keeps the table, holder and ownership invariants |
| `LifecycleLocks.MutualExclusion` | app/arcbox-core/src/runtime.rs:443-459 | in every interleaving, two operations on one container id never hold its lock at once |
| `LifecycleLocks.WaitsOnlyForItsOwn` | app/arcbox-core/src/runtime.rs:443-459 | a waiter can acquire exactly when nobody holds the lock of its own container |
| `LifecycleLocks.ReplacedLocksStayDead` | app/arcbox-core/src/runtime.rs:449-456 | a lock replaced in the table is never waited for or held again |
| `LifecycleLocks.PruningIsComplete` | app/arcbox-core/src/runtime.rs:449-456 | without a drop in between, a call leaves no dead entry in the table |
| `HostNetworkFence.StepKeepsInv` | app/arcbox-core/src/runtime/host_network.rs:29-53 | every step, also one in the middle of clearing a replaced VM's state, keeps lock ownership, the lease count and the fence around every snapshot |
| `HostNetworkFence.MissedMeansStale` | app/arcbox-core/src/runtime/host_network.rs:127-153 | any step that makes a snapshot miss a change also makes it stale |
| `HostNetworkFence.CaptureMissesNothing` | app/arcbox-core/src/runtime/host_network/snapshot.rs:27-41 | a snapshot is taken with no lease out and no writer at work |
| `HostNetworkFence.StaleListingsAreNeverPublished` | app/arcbox-core/src/runtime/host_network/snapshot.rs:50-66 | in every run, a listing passes its check only if since its capture nothing changed container host state and no guest mutation was admitted |
| `HostNetworkFence.WritersAreFenced` | app/arcbox-core/src/runtime.rs:1431-1442 | whoever may change container host state, or is halfway through clearing it, holds the commit lock, and every other task's snapshot is already stale |
| `HostNetworkFence.StaleForever` | app/arcbox-core/src/runtime/host_network.rs:45-51 | a stale snapshot never becomes current again, also at the last generation number |
| `HostNetworkFence.NamesBelongToTheListedVm` | app/arcbox-core/src/runtime/host_network/snapshot.rs:100-127 | names are published under the commit lock and only while the listed VM is current |
| `HostNetworkFence.ClosedForever` | app/arcbox-core/src/runtime/host_network/retirement.rs:92-100 | once admission is closed, no listing passes and no names are published |
| `HostNetworkFence.LeasesAreCounted` | app/arcbox-core/src/runtime/host_network.rs:224-238 | while a lease is out the active count is positive, so no listing can pass |
| `HostReconciler.ReconcileLoop` | app/arcbox-docker/src/host_reconciler.rs:78-143 | a query is made exactly in turns woken by the timer, with the VM ready and retirement done; the short delay is used exactly until the host has caught up |
| `HostReconciler.CaughtUpIff` | app/arcbox-docker/src/host_reconciler.rs:108-136 | caught up means: some turn published a listing and no later turn found the VM returned, cleared or unretired |
| `GuestWorkers.LogGrows` | app/arcbox-daemon/src/guest_workers.rs:57-88 | starting a worker only for a name without an unjoined worker keeps workers of one name from ever overlapping |
| `GuestWorkers.Workers.Sync` | app/arcbox-daemon/src/guest_workers.rs:57-78 | unless shut down: every wanted name is active, every unwanted worker is cancelled, wanted ones are kept and told |
| `GuestWorkers.Workers.Completed` | app/arcbox-daemon/src/guest_workers.rs:80-88 | a joined worker gives its name back unless it panicked |
| `GuestWorkers.Workers.Turn` | app/arcbox-daemon/src/guest_workers.rs:116-139 | while supervising, active names and unjoined workers correspond one to one; after each sync wanted names are active and the others cancelled; a stopping machine's worker is cancelled; an error ends supervision |
| `GuestWorkers.Workers.Drain` | app/arcbox-daemon/src/guest_workers.rs:144-155 | every remaining worker is joined and the first error kept |
| `GuestWorkers.Workers.Supervise` | app/arcbox-daemon/src/guest_workers.rs:91-155 | returns with no worker left and all told to stop; workers of one name never overlapped; the result is the first error, so Ok exactly if the event source stayed open and every worker ever started ended well |
| `GuestWorkers.JoinServices` | app/arcbox-daemon/src/guest_workers.rs:18-43 | Ok exactly if every service ended well, else the first failure in joining order; the first exit cancels the rest before any other is joined, and all are joined |
| `StatsHub.SoundAlways` | app/arcbox-core/src/stats_hub.rs:89-149 | in every run the slot is the newest pump's, and a subscriber about to join aims at the slot's channel |
| `StatsHub.ExitSparesNewerPumps` | app/arcbox-core/src/stats_hub.rs:144-147 | an exiting pump clears the slot only if it is its own |
| `StatsHub.ServedThroughoutIff` | app/arcbox-core/src/stats_hub.rs:89-149 | every receiver is on the slot's channel with its pump at work, throughout a run, exactly when no subscriber joins a channel whose pump read zero receivers after the subscriber's own look |
| `StatsHub.SubscriberCanBeStranded` | app/arcbox-core/src/stats_hub.rs:90-95 | a run in which a subscriber ends up with no pump and no slot |
| `StatsHub.AtomicIsServed` | app/arcbox-core/src/stats_hub.rs:89-107 | with subscribe as one step every receiver is always served |
| `StatsHub.EmptyChannelsStayEmpty` | app/arcbox-core/src/stats_hub.rs:89-149 | with subscribe as one step a channel that lost its last receiver never gets another |
| `DnsRegistry.ValidAlways` | common/arcbox-dns/src/registry.rs:149-216 | revisions are never handed out twice and never exceed the epoch |
| `DnsRegistry.OneOwner` | common/arcbox-dns/src/claims.rs:217-258 | a lookup selects at most one owner |
| `DnsRegistry.OldRevisionsAreUnchanged` | common/arcbox-dns/src/registry.rs:149-216 | whatever still carries an old revision is as it was then |
| `DnsRegistry.SameRevisionSameOwner` | common/arcbox-dns/src/registry.rs:239-253 | where the owner's own revision is the reported one, seeing it again means the same owner with the same registration |
| `DnsRegistry.SelectionSurvivesRemovals` | common/arcbox-dns/src/claims.rs:217-258 | removing other owners never takes a name from the owner that has it |
| `DnsRegistry.RevisionIdentifiesOwnerIff` | common/arcbox-dns/src/registry.rs:239-253 | a revision seen again always means the same owner exactly unless, at the first look, removals alone could hand the name to another owner and both owners' revisions are below the authority's |
| `DnsRegistry.ReplicaTakesOverUnseen` | common/arcbox-dns/src/registry.rs:239-253 | two replicas and a new authority lifetime: the second replica takes the name over under the same revision |
| `TlsSigner.SameGrantSameOwner` | app/arcbox-core/src/runtime/web_services/guest.rs:189-222 | two looks that grant the same revision see the same owner, where the owner's own revision counts |
| `TlsSigner.World.Authorize` | app/arcbox-core/src/runtime/web_services/guest.rs:189-222 | a revision is granted exactly for the captured VM and a matched name whose owner and registration the guest may use |
| `TlsSigner.World.Serve` | app/arcbox-daemon/src/tls_signer.rs:169-228 | a certificate is sent only if the name's revision was the same at the request, before signing and after, and the authority that signed is still the current one at a check after that, with any change possible between any two of these looks; undisturbed, an authorized request is served |
| `TlsSigner.World.ServePinned` | app/arcbox-daemon/src/tls_signer.rs:169-228 | where the owner's own revision was granted, all three authorizations saw the same owner with the same registration |
| `KubernetesLb.StepKeepsInv` | app/arcbox-daemon/src/kubernetes_lb.rs:99-184 | every step of the loop, of a poll, of a close, of the world or of other lock holders keeps lock, poll and port invariants |
| `KubernetesLb.OnePollAtATime` | app/arcbox-daemon/src/kubernetes_lb.rs:107-139 | in every interleaving at most one poll is unfinished, and only while the loop waits for it |
| `KubernetesLb.PollsStartReadyAndHeld` | app/arcbox-daemon/src/kubernetes_lb.rs:107-114 | a poll starts only if the hold reads true then and the VM read ready just before, with nothing else done in between and no poll under way |
| `KubernetesLb.JoinLeavesNothing` | app/arcbox-daemon/src/kubernetes_lb.rs:123-131 | however the cancelled poll and the close interleave, when both are over nothing is published, reported or under way |
| `KubernetesLb.JoinNeverHangs` | app/arcbox-daemon/src/kubernetes_lb.rs:125-127 | the join of poll and close has a step to take unless somebody else holds the port lock or the commit lock |
| `KubernetesLb.CloseAloneCanHang` | app/arcbox-daemon/src/kubernetes_lb.rs:125-127 | a run in which the cancelled poll holds the port lock, so that waiting for the close alone would hang |
| `KubernetesLb.ParkedPortsAreReported` | app/arcbox-daemon/src/kubernetes_lb.rs:141-164 | whenever the loop sleeps every recorded port is one reported forwarded, and there are none after a failed poll or without VM and hold |
| `KubernetesLb.AppliedListingsAreReported` | app/arcbox-core/src/runtime/kubernetes_lb.rs:216-279 | a listing is applied only with its token not cancelled and its VM live, reports every requested port, and exactly the open ones as forwarded |
| `KubernetesLb.GivenUpListingsLeaveNothing` | app/arcbox-core/src/runtime/kubernetes_lb.rs:266-277 | a listing given up halfway ends with no port open and nothing reported: its own cleanup never fails |
| `KubernetesLb.ReportIsTrueIff` | app/arcbox-core/src/runtime/host_network/retirement.rs:42-60 | any report was made by an applied listing; from then on the recorded ports are among those reported, and they are exactly those if and only if no step since took some: a close under way, or a retirement of listeners bound for another VM than the one to keep |
| `KubernetesLb.AnswersAreTrueWhileTheVmStays` | app/arcbox-core/src/runtime/kubernetes_lb.rs:337-359 | while the VM of the report stays the live one, whatever the status query answers is true: exactly the recorded ports are reported forwarded |
| `KubernetesLb.AnswerCanBeFalse` | app/arcbox-core/src/runtime/host_network/retirement.rs:27-60 | a run in which the VM stops, its listeners are retired while the loop sleeps, the stop is called off, and the status query answers that a port without a listener is forwarded |
| `KubernetesLb.ExitIsClean` | app/arcbox-daemon/src/kubernetes_lb.rs:166-167 | on exit nothing is published and no poll is under way, for good |
| `WebIndex.StepKeepsInv` | app/arcbox-daemon/src/web_index.rs:47-93 | every step keeps lock, refresh and index invariants |
| `WebIndex.OneRefreshAtATime` | app/arcbox-daemon/src/web_index.rs:65-89 | in every interleaving at most one refresh is unfinished, and only while the loop waits for it; a refresh that holds the commit lock is that one |
| `WebIndex.RefreshesStartReady` | app/arcbox-daemon/src/web_index.rs:61-66 | a refresh starts only when the VM reads ready and no refresh is under way; otherwise the index is withdrawn next |
| `WebIndex.JoinLeavesNothing` | app/arcbox-daemon/src/web_index.rs:77-88 | however the cancelled refresh and the withdrawal interleave, when both are over the index is withdrawn and nothing is under way |
| `WebIndex.JoinNeverHangs` | app/arcbox-daemon/src/web_index.rs:83-84 | the join always has a step to take unless somebody else holds the commit lock |
| `WebIndex.WithdrawalAloneCanHang` | app/arcbox-daemon/src/web_index.rs:83-84 | a run in which the cancelled refresh holds the commit lock, so that waiting for the withdrawal alone would hang |
| `WebIndex.PublishedIsTheAnswer` | app/arcbox-core/src/runtime/web_services/index.rs:55-76 | an address is published only under the commit lock, by the refresh the loop waits for, with its token not cancelled, and it is the guest's answer |
| `WebIndex.ExitIsClean` | app/arcbox-daemon/src/web_index.rs:91-92 | on exit the index is withdrawn and no refresh is under way, for good |
| `HttpsAccess.RequestsNeverOverlap` | app/arcbox-daemon/src/https_access.rs:166-193 | in every interleaving two requests that are not over are the same one, and the observer waits for it |
| `HttpsAccess.EnablesAreDisabled` | app/arcbox-daemon/src/https_access.rs:84-164 | between an enable and the next enable of another target lies a finished attempt to disable the first |
| `HttpsAccess.ExitIsDisabled` | app/arcbox-daemon/src/https_access.rs:163-164 | the observer exits only after a finished attempt to disable whatever it enabled |
| `HttpsAccess.DisableWasSentIff` | app/arcbox-daemon/src/https_access.rs:166-193 | a finished attempt to disable was sent exactly if it began before the observer cut it short |
| `HttpsAccess.EarlierRequestsAreOver` | app/arcbox-daemon/src/https_access.rs:189-192 | when a request is made every earlier one is over, so no enable arrives after a later disable |
| `HttpsAccess.RequestsStay` | app/arcbox-daemon/src/https_access.rs:166-193 | a finished request stays as it ended |
| `HttpsAccess.RecordsAreCurrent` | app/arcbox-daemon/src/https_access.rs:141-156 | an observation is recorded only for the active target, from a request sent and answered, with the VM ready and shutdown not begun |
| `HttpsAccess.RequestsGetOn` | app/arcbox-daemon/src/https_access.rs:176-192 | while the observer waits for a request, that request or the observer has a step to take |
| `HostMount.LineRoundTripIff` | app/arcbox-core/src/host_mount.rs:155-171 | a mount line parses back to its parts exactly when the source is clear of " on ", the mount point of " (", and the type is trimmed and free of commas and parentheses |
| `HostMount.ParenthesisInMountPoint` | app/arcbox-core/src/host_mount.rs:157-157 | a volume named with a parenthesis is misread |
| `HostMount.ExportsAreDisjoint` | app/arcbox-core/src/host_mount.rs:32-52 | no mount is both a docker export and a machine export |
| `HostMount.Under` | app/arcbox-core/src/host_mount.rs:124-136 | exactly the strict descendants, deepest first, equal depths in table order, so releasing them in turn never meets one still covered by a listed mount |
| `HostMount.Insert` | app/arcbox-core/src/host_mount.rs:134-135 | the stable order is kept while one mount is inserted |
| `HostMount.MountAt` | app/arcbox-core/src/host_mount.rs:98-116 | finds the mount the path names along at most 16 symlinks, and never asks about a path the table lists as mounted |
| `HostMount.Entry` | app/arcbox-core/src/host_mount.rs:139-144 | the first table entry for a mount point, if there is one |
| `HostTools.OthersStayGood` | app/arcbox-docker-tools/src/manager.rs:66-152 | installing one tool leaves every tool it does not collide with as it was for the validator |
| `HostTools.CollidingToolBreaksDockerIff` | app/arcbox-docker-tools/src/manager.rs:367-377 | a tool named like docker's sidecar leaves docker valid exactly if its text is docker's digest |
| `HostTools.Manager.IsCached` | app/arcbox-docker-tools/src/manager.rs:161-177 | cached means good for the validator, and in a steady directory the other way round |
| `HostTools.Manager.TryBundle` | app/arcbox-docker-tools/src/manager.rs:183-273 | a bundled copy replaces the tool only with the right digest; otherwise nothing changes |
| `HostTools.Manager.Download` | common/arcbox-asset/src/download.rs:47-113 | a download replaces the file only with the right digest; otherwise nothing changes |
| `HostTools.Manager.InstallOne` | app/arcbox-docker-tools/src/manager.rs:66-152 | any success leaves the tool good; a good tool is found cached and nothing is written |
| `HostTools.Manager.InstallAll` | app/arcbox-docker-tools/src/manager.rs:49-63 | success on non-colliding tools leaves all of them good; where they all were, everything is cached and nothing written |
| `HostTools.Manager.ValidateAll` | app/arcbox-docker-tools/src/manager.rs:276-329 | accepts exactly when every tool is good |
| `HostTools.Manager.InstallValidateReinstall` | app/arcbox-docker-tools/src/manager.rs:49-329 | after a successful installation the validator accepts and a second one finds every tool cached |

## Left out

- Back-off between route attempts, route-event watching and bridge discovery itself: discovery's answer is an input of each round.
- The default pool's detached route hook and the setup at daemon start: other callers of the modelled initialization; beside a running guard they are part of the interference it meets.
- Listener data paths, port number 0 and the port the system picks for it: a listener is identified by what was asked for, and a wildcard address does not conflict with a particular one.
- ListenerRuntime.Runtime.Perform: states the ownership invariant only; what each operation does is stated by the operation's own contract.
- Clearing a replaced VM's ports and names on retirement: in the fence two steps of the lock holder, not port by port or name by name.
- The bodies of the public host-network mutators: in the fence each is a writer that has advanced the generation under the commit lock and may then change host state in any way.
- Ports and DNS claims inside a published listing: the fence publishes names as one step and ports as arbitrary writes by the same lock holder.
- DNS boundaries, reserved and delegated trees, and name parsing: claims are matched by label; owners are numbered in the order of their identities; the epoch is unbounded where the code panics on overflow.
- The stats pump's stream handling: a pump may look at its receiver count at any time; generation numbers are unbounded.
- TLS framing, request parsing and the retry loop around a signing session.
- The Kubernetes port outcomes other than forwarded or not, and their logging: a published port is one whose owner has a recorded listener; that every live listener is recorded is proved in `ListenerRuntime.dfy`, and a record whose listener has ended by itself counts as published.
- `stop_port_forwarding_all`, which nothing in the daemon calls by itself, as another way to remove Kubernetes ports; runtime shutdown, which calls its body, is modelled as one step under both locks.
- HTTPS access: whether the guest's claim still covers an observed address is an input.
- `prepare_container_incarnation` inside the publication of an index: it appears as a step of the fence.
- Reading the mount table, path canonicalization and joining links: inputs to the lookups.
- Tool download URLs, executable bits, temporary file names and archive contents; file contents are text.
- HTTP, gRPC and Docker proxy servers, CLI, configuration, disk reclaim, power and storage health: plumbing or single-branch facts.
