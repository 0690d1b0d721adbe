# Verification model of the OVHcloud cluster-api provider

A Dafny model of the two reconcilers of the provider, of the OVH region they drive, and of the
smaller parts their idempotence rests on. The reconcilers keep two states that can drift apart: the
saved object (status, finalizer, endpoint) and the OVH cloud. Every API call is answered by an
oracle that may succeed, succeed with an effect still under way, fail, fail in a way the client
takes for 404, or answer 409 with or without a pending state; every pass may lose its final patch.

`dafny verify dfyconfig.toml` checks everything.

## How it is organised

| file | content |
|---|---|
| `OvhCloud.dfy` | the region as the API shows it, and what each API call does to it |
| `ClusterSteps.dfy`, `ClusterDelete.dfy` | one reconcile pass of an OVHCluster as functions on (cloud, object, history), with frame contracts |
| `ClusterScope.dfy` | the same passes as the source writes them: a class whose methods update cloud and status in place, with early returns, loops and scans, each proved to compute the function |
| `ClusterRuns.dfy`, `Uniqueness.dfy` | runs: passes in any order, patches saved or lost, edits, anybody else's changes; nothing created twice |
| `Ownership.dfy` | only networks created here are deleted, and when that fails |
| `GroupOwnership.dfy` | whose security groups a delete pass removes; when two clusters mean the same group |
| `Repeats.dfy` | exactly when a run posts another DNS record, network or load balancer |
| `Effects.dfy` | what a pass adds to the cloud and puts on record: names, places, ports, networks and subnets |
| `PassEnds.dfy` | when an error-free pass fails, comes back or ends Ready |
| `Provenance.dfy` | where the recorded floating IP and the endpoint come from |
| `Quiescence.dfy`, `Provisioning.dfy` | a finished cluster is left alone; provisioning converges exactly when it has what it needs |
| `Deletion.dfy`, `DeletionRuns.dfy`, `DeletionProgress.dfy` | when the finalizer goes, in one pass and in every run; what is left behind; deletion converges |
| `FipCleanup.dfy` | exactly which floating IPs a completed deletion leaves attached or up |
| `BestEffort.dfy` | exactly which DNS records, groups, gateways, pools, listeners and networks it leaves |
| `Wiring.dfy` | recorded identifiers name what they are recorded as; listeners, pools and monitors are connected as their port needs |
| `Ties.dfy` | the recorded API server listener and pool are the recorded load balancer's |
| `Ports.dfy` | which ports and pools are really served and monitored |
| `MachineSteps.dfy` | a pass over an OVHMachine, one API call at a time |
| `MachineScope.dfy` | the machine controller as a class, proved to do what the call-by-call model does when nothing interrupts it |
| `MachineRuns.dfy`, `MachineReadiness.dfy` | machines interleaving between any two API calls; Ready, provider ID and deletion of one machine |
| `Registration.dfy` | which pool members a machine's pass leaves |
| `MachineProgress.dfy` | repeated passes over one machine: when it becomes Ready for good, and when its finalizer goes |
| `Names.dfy` | generated names and provider IDs |
| `Retry.dfy`, `ApiErrors.dfy` | the retrying and polling client, error classification |
| `ClientLink.dfy` | the retrying creation of a load balancer and the cloud model's step agree |
| `Schemas.dfy`, `Conversion.dfy` | the schema flattener, API version conversion |
| `Collections.dfy` | first-match scans, filters, counts |

Assumptions about the cloud: a POST or DELETE that answers with an error has had no effect; a
listing that succeeds shows everything it covers, except load balancers whose creation task is
still running; identifiers are never reused.

## Where the code does not do what it or its documentation says

- The finalizer can go while a load balancer stays, in two ways. A DELETE refused with 409 PENDING_UPDATE
  counts as accepted (`pkg/ovh/client.go:805-820`; `Deletion.AllBusyLeavesEverything`, and with answered
  listings `Deletion.BusyDeletesLeaveLbs`). And a failed listing of the orphans is only logged
  (`internal/controller/ovhcluster_controller.go:1197-1200`): with no ID on record after a lost patch,
  nothing else finds the load balancer (`Deletion.FailedListingLeavesLbs`). Exactly what is left:
  `Deletion.LbLeftBehindIff`, and for every run `DeletionRuns.LbOutlivesIff`.
- A floating IP known only through its association with the load balancer is forgotten as soon as a
  DELETE detaches it (`Deletion.UnrecordedFipForgotten`): with every call answered, the finalizer goes
  after two passes while it still exists (`FipCleanup.FipLeaksInTwoPasses`). What a completed pass leaves is
  exactly what it neither had on record nor found attached
  (`FipCleanup.FipLeftBehindIff`, `FipCleanup.FipLeftBehindIffUnrecorded`). The convergence of deletion is
  about the finalizer and says nothing against this leak.
- "Network created by the controller" outlives the network: after it vanished, an edit naming a
  user's network makes the controller adopt and later delete that network
  (`Ownership.EditAdoptsUnderCreatedMark`, `Ownership.ForeignNetworkDeletedIff`, and as a whole run
  `Ownership.UsersNetworkDeleted`).
- Health monitors are meant to be attached to each pool, but their names carry no cluster name and are
  looked up region-wide, so a second cluster's pools stay unmonitored (`Ports.MonitoredIff`,
  `Ports.UnmonitoredForever`).
- After a vanished load balancer has been replaced, the supervisor listener is not recreated when the
  old one is on record (`Ports.ReplacedLbListens`), in no later pass of any run (`Ports.UnservedForever`).
  The cluster is Ready all the same: an ID on record is never looked at again (`Ports.ReadyServesIff`).
- Security-group names join cluster and group name with a hyphen, so cluster "a" with group "b-c" and
  cluster "a-b" with group "c" mean the same group, and deleting the second removes the first one's
  (`GroupOwnership.SameGroupNameIff`, `GroupOwnership.CollidingGroupRemoved`). A group that a controller
  removes always has a name of the cluster being deleted (`GroupOwnership.OnlyOwnGroupsRemoved`).
- A failed DELETE of the DNS record, a security group or the gateway is only logged
  (`internal/controller/ovhcluster_controller.go:1130-1147`, `:1216-1231`), and the finalizer goes
  (`BestEffort.LeftExactly`): with every call failing, a cluster without a recorded load balancer and without a
  network of its own is gone while everything else stays (`BestEffort.FailedPassDoneIff`).
- Prefix cleanup reaches clusters whose name continues with "-lb", and long cluster names share one
  load balancer name (`Names.PrefixReach`, `Names.LongClustersShareLb`). The names are called RFC
  1035 names, but an instance name starts with a letter only if the cluster's name does
  (`Names.InstanceNameIsDnsLabelIff`).
- A delete pass over a controller-created network never ends while somebody else's load balancer or
  gateway is on it (`DeletionProgress.ConvergesIffUnblocked`).
- A machine whose instance vanished stays Ready with the old provider ID while a new instance is
  created (`MachineReadiness.StaleReadyIff`, `MachineReadiness.VanishedStaysReady`); machine deletion
  leaves the supervisor pool member (`MachineReadiness.DeleteReaches`) and, with every call answered, exactly
  the instances that are not on record (`MachineReadiness.DeletedIff`, `MachineReadiness.UnrecordedInstanceLeft`),
  so one whose ID was lost with a patch outlives its machine (`MachineRuns.LostPatchLeavesInstance`).
- Pool members are added after a failed listing too, which makes a twin
  (`MachineRuns.TwinIffListingFails`, `MachineRuns.RegisterTwinIffListingFails`); two machines with one instance name create it twice
  (`MachineRuns.SharedNameCreatesTwice`).
- An identifier containing "404" in a wrapped message makes a refused connection count as not found
  (`ApiErrors.RefusedConnectionNotFound`).
- Conversion there and back is the identity only up to slices that are empty but not nil, and a nil
  list comes back empty (`Conversion.ClusterRoundTrip`, `Conversion.ListRoundTrip`).
- The flattener knows "int" but not "integer" or "number", and loses arrays of arrays and maps of maps
  (`Schemas.ShownIffFaithful`); of a variable that is itself a map of anything but objects it keeps nothing
  (`Schemas.FlatteningLosesNothingIff`, `Schemas.MapOfStringsLost`).
- reconcileDNS is documented to create or update a record. It never looks one up: it creates another one
  whenever none is on record, so after each lost patch (`Repeats.RecordPostedIff`,
  `Repeats.LostRecordPostedAgain`). The private network
  behaves the same (`Repeats.NetworkPostedIff`), and a second load balancer is posted past a failed lookup
  (`Repeats.SecondLbPostedIff`).
- Without a floating network and without a VIP a cluster becomes Ready with no endpoint
  (`Provenance.ReadyEndpointIff`).

## Model

| member | source | states |
|---|---|---|
| Uniqueness.NothingCreatedTwice | internal/controller/ovhcluster_controller.go:371-433 | in every run of any number of clusters, whatever calls fail and patches are lost, at most one security group, listener, pool and monitor per key |
| Uniqueness.OneLbPerName | pkg/ovh/client.go:610-643 | in every run of any number of clusters in which each pass that does look for an LB before creating one gets that listing in full, at most one LB per name, whatever else fails or is lost |
| Uniqueness.OneLbIff | pkg/ovh/client.go:610-643 | in every run, whatever is answered, there is at most one LB of a name throughout exactly when no pass posts one past a lookup that missed the one there is |
| Uniqueness.NormalCopies | internal/controller/ovhcluster_controller.go:662-768 | whatever is answered, a pass adds one LB of a name exactly when it is the cluster's, the pass gets as far as the lookup, that finds none, and the POST goes through; otherwise it adds none |
| Uniqueness.GroupsOnce | internal/controller/ovhcluster_controller.go:395-413 | the group loop over one listing creates no second copy, even when the spec repeats a name |
| Uniqueness.PortOnce | internal/controller/ovhcluster_controller.go:1007-1105 | the port step creates no second listener, pool or monitor |
| Ownership.OnlyOwnNetworksDeleted | internal/controller/ovhcluster_controller.go:1233-1246 | over any run with a fixed networkConfig every network DELETE is for a network this controller created |
| Ownership.EditAdoptsUnderCreatedMark | internal/controller/ovhcluster_controller.go:517-553 | after a created network vanished, an edit adopts the user's network with the created mark still set |
| Ownership.UsersNetworkDeleted | internal/controller/ovhcluster_controller.go:502-614 | a run of create, vanish, clear, edit and delete ends with an accepted DELETE of the user's network, which was never created here |
| Ownership.ForeignNetworkDeletedIff | internal/controller/ovhcluster_controller.go:1233-1246 | a completed delete pass deletes a network not created here exactly when it is recorded under that mark |
| GroupOwnership.SameGroupNameIff | internal/controller/ovhcluster_controller.go:392-393 | two clusters' groups have one name exactly when cluster and group are the same, or one cluster's name continues the other's by a hyphen and what its group's name lacks |
| GroupOwnership.OnlyOwnGroupsRemoved | internal/controller/ovhcluster_controller.go:1140-1147 | after any run of any number of clusters that keep their names, a pass that makes a group disappear is a delete pass, and the group has the name this cluster gives the one it is on record as, so it is another cluster's only if the two names collide |
| GroupOwnership.GroupsRemovedIff | internal/controller/ovhcluster_controller.go:1140-1147 | with every call answered a delete pass removes exactly the groups on record, whatever the iteration order |
| GroupOwnership.CollidingGroupRemoved | internal/controller/ovhcluster_controller.go:392-403 | a second cluster adopts the first one's group under a colliding name and removes it while it is on record for the first |
| Effects.NormalEffect | internal/controller/ovhcluster_controller.go:262-331 | whatever its calls answer, a pass keeps every resource but for an exposed gateway, a subnet more in the recorded network and LBs that show; each new listener has its port's literal name and number, is on the recorded LB and on record, each new pool hangs on the recorded listener, each monitor on the recorded pool, each group is on record under its literal name, each LB is on the recorded network, each floating IP on the recorded LB, each gateway on that LB's network, each DNS record on record |
| Effects.NetworkStepEffect | internal/controller/ovhcluster_controller.go:502-614 | a network newly on record is the user's or the one just created, with the created mark set exactly then; a subnet newly on record is the network's first or, if it had none, the one just created in it |
| Effects.SubnetOfNetwork | internal/controller/ovhcluster_controller.go:583-611 | in every run a recorded subnet is one of the recorded network's, as long as that exists and nobody else takes its subnets |
| Effects.CreateEffect | internal/controller/ovhcluster_controller.go:728-768 | creation adds at most one LB, with the generated name and on the network on record, and changes no other but for showing |
| Effects.PortEffect | internal/controller/ovhcluster_controller.go:1007-1105 | the port step adds only the listener, pool and monitor of its port: "api-server" on 6443 or "rke2-register" on 9345 |
| Effects.ExposedIff | internal/controller/ovhcluster_controller.go:959-1000 | the gateway is marked exposed exactly when it was, or when it is known and the request is accepted or answered with any 409; exactly an accepted request exposes it |
| Effects.AllocatedRecorded | internal/controller/ovhcluster_controller.go:907-954 | with every call answered, a floating IP just created is put on record, from the LB or from the listing |
| Effects.RefusedGroupLast | internal/controller/ovhcluster_controller.go:402-413 | a refused security group ends the group step |
| PassEnds.ErrorFreePassEnds | internal/controller/ovhcluster_controller.go:262-331 | an error-free pass fails exactly when its network is gone or there is no LB and nothing to create one with; it comes back without finalizer, while network or LB is on its way and after creating an LB; otherwise without a floating network it ends Ready |
| PassEnds.PassFailsIff | internal/controller/ovhcluster_controller.go:262-331 | whatever is answered, a pass fails exactly when the credentials, the network step or the LB step do; groups, monitors, gateways and DNS never fail it |
| PassEnds.NetworkFailsIff | internal/controller/ovhcluster_controller.go:502-614 | the network step fails exactly on a refused creation, a failed or empty read, subnets that cannot be listed, or a first one that cannot be created |
| PassEnds.PortFailsIff | internal/controller/ovhcluster_controller.go:1007-1064 | the port step fails exactly on a failed lookup or creation of listener or pool |
| PassEnds.FipStepFailsIff | internal/controller/ovhcluster_controller.go:846-954 | a floating IP is asked for exactly when none is at hand and the LB has a VIP, and the step fails exactly when that is refused |
| Provenance.FipFromOwnLb | internal/controller/ovhcluster_controller.go:846-954 | in every run the recorded floating IP was there from the start, is the spec's, or was at the time of recording referred to by the recorded LB or listed as associated with it |
| Provenance.PassSightsTrue | internal/controller/ovhcluster_controller.go:846-954 | each new sighting of a pass is true of the cloud and of the recorded LB, and so is a newly recorded floating IP |
| Provenance.FipProvenance | internal/controller/ovhcluster_controller.go:889-925 | in every reachable state, spec edits included, the recorded floating IP has been sighted or was named by a spec used so far, and is never the placeholder a POST returned |
| Provenance.FipAddressSeen | internal/controller/ovhcluster_controller.go:846-954 | an address the step returns is nonempty and was shown by the API as a floating IP's |
| Provenance.ReadyEndpointIff | internal/controller/ovhcluster_controller.go:800-830 | a pass that ends Ready leaves an endpoint exactly when there was one, a floating network is set, or the LB has a VIP |
| Provenance.EndpointWrittenOnce | internal/controller/ovhcluster_controller.go:823-830 | once set, the saved endpoint never changes in any run |
| Provenance.EndpointIsFloating | internal/controller/ovhcluster_controller.go:804-830 | with a floating network throughout, the endpoint is always an address the API showed as a floating IP's |
| Provenance.EndpointFromOwn | internal/controller/ovhcluster_controller.go:804-830 | in every run the endpoint is unset, was there from the start, or was written by one saved pass, with a floating network as an address of the recorded floating IP that it or the recorded LB then showed, otherwise as the recorded LB's VIP |
| Quiescence.ReadyIsSettled | internal/controller/ovhcluster_controller.go:262-331 | an error-free pass that ends Ready leaves network and LB in place, with a floating network also floating IP, exposed gateway if there is one, and endpoint; the IDs of groups, listeners, pools and DNS record on record; and some monitor of each name |
| Quiescence.SettledQuiet | internal/controller/ovhcluster_controller.go:262-331 | an error-free pass over a settled cluster changes neither cloud nor status and logs no changing call |
| Quiescence.Quiescent | internal/controller/ovhcluster_controller.go:262-331 | in every infinite sequence of saved error-free passes, after one that ends Ready nothing is created, exposed or deleted and cloud and status stay as they are |
| Provisioning.PassMoves | internal/controller/ovhcluster_controller.go:262-331 | an error-free pass keeps the invariant and ends Ready, lowers the rank, or only waits for time |
| Provisioning.TickRank | internal/controller/ovhcluster_controller.go:560-580 | a tick never raises the rank and lowers it while something is awaited |
| Provisioning.Converges | internal/controller/ovhcluster_controller.go:262-331 | every infinite sequence of saved error-free passes and ticks reaches Ready with a nonempty endpoint |
| Provisioning.NeverReady | internal/controller/ovhcluster_controller.go:262-331 | without a configured network to be had, or without an LB and the means to create one, no pass ever ends Ready |
| Provisioning.ConvergesIffProvisionable | internal/controller/ovhcluster_controller.go:262-331 | in a sound cloud provisioning converges exactly when it has a network if configured, and an LB or the means to create one |
| Provisioning.NotReadyWithoutNetwork | internal/controller/ovhcluster_controller.go:700-768 | without a network and a load balancer to use no pass ends Ready, whatever the API answers |
| Wiring.RecordsAndWiring | internal/controller/ovhcluster_controller.go:371-433 | in every run of a cluster that keeps its name, spec edits included, whatever a recorded listener, pool, group or gateway ID names has the name it is recorded for, a load balancer too unless it was the first or a spec named it, every listener named "api-server" listens on 6443 and every one named "rke2-register" on 9345, pools and monitors of a port's names name its listener and pool |
| Ties.ApiPortTied | internal/controller/ovhcluster_controller.go:662-768 | in every run whatever the recorded API server listener and pool IDs name is on the load balancer on record |
| Wiring.PortWired | internal/controller/ovhcluster_controller.go:1007-1064 | the port step keeps that for both ports |
| Wiring.EnsureGroupsWired | internal/controller/ovhcluster_controller.go:392-413 | so does the group loop, for adopted and created groups |
| Wiring.GatewayWired | internal/controller/ovhcluster_controller.go:959-1000 | so does finding and exposing the gateway |
| Wiring.CreateWired | internal/controller/ovhcluster_controller.go:700-768 | the load balancer recorded after creation has the cluster's generated name |
| Wiring.ActWired | internal/controller/ovhcluster_controller.go:262-331 | every pass of either kind, saved or lost, keeps records and connections right and takes a load balancer only from the record, its spec or the generated name |
| DeletionRuns.FinalizerGoesOnlyClean | internal/controller/ovhcluster_controller.go:1110-1252 | in every infinite run the finalizer goes exactly in a saved delete pass that is told to keep the infrastructure or completed its cleanup |
| DeletionRuns.EveryPassInOrder | internal/controller/ovhcluster_controller.go:1110-1252 | in every infinite run each delete pass, however far it gets, works in the documented order |
| DeletionRuns.NoLbOutlivesRun | internal/controller/ovhcluster_controller.go:1169-1210 | in every infinite run, when the finalizer goes in a pass whose listing and deletes went through, no LB with the cluster's name prefix is left un-deleted |
| DeletionRuns.LbOutlivesIff | internal/controller/ovhcluster_controller.go:1169-1210 | in every infinite run, when a delete pass without the keep annotation loses the finalizer, an LB is left un-deleted exactly when it was not being deleted before and no DELETE for it went through |
| Deletion.PassInOrder | internal/controller/ovhcluster_controller.go:1110-1252 | every delete pass works through DNS, groups, pool, listener, LBs, floating IPs, gateway, network in that order |
| Deletion.FinalizerGoesIffClean | internal/controller/ovhcluster_controller.go:1110-1252 | without the keep annotation a pass removes the finalizer exactly when the recorded LB's delete was accepted, every floating IP read was gone, the recorded one was read, and a created network's delete was accepted |
| Deletion.DeleteFailsIff | internal/controller/ovhcluster_controller.go:1187-1192 | a delete pass fails exactly when the recorded LB's DELETE is refused with neither a 404 nor a 409 naming a pending state |
| Deletion.CleanFipsReads | internal/controller/ovhcluster_controller.go:1268-1296 | floating-IP cleanup reads every captured one and asks for another pass exactly when one was not gone |
| Deletion.LbLeftBehindIff | internal/controller/ovhcluster_controller.go:1169-1210 | whatever the API answered, a completed pass leaves an LB un-deleted exactly when it was not being deleted before and no DELETE for it went through: the recorded one's, or one that the answered orphan listing led to |
| Deletion.FailedListingLeavesLbs | internal/controller/ovhcluster_controller.go:1197-1200 | with nothing on record and only the orphan listing failing, the finalizer goes and every LB stays as it is |
| Deletion.NoLbOutlives | internal/controller/ovhcluster_controller.go:1194-1210 | if the listing and the deletes go through, no LB with the cluster's name prefix is left un-deleted, recorded or not |
| Deletion.AllBusyLeavesEverything | pkg/ovh/client.go:805-820 | if every call answers 409 with a pending state the finalizer goes and the cloud is unchanged |
| Deletion.BusyDeletesLeaveLbs | pkg/ovh/client.go:805-820 | with listings answered and LB DELETEs refused as pending, the pass completes and no LB is being deleted |
| FipCleanup.CaughtIff | internal/controller/ovhcluster_controller.go:1147-1166 | a pass deletes exactly the recorded floating IP and, if the listing is answered, those attached to the recorded LB, each once |
| FipCleanup.FipLeftBehindIff | internal/controller/ovhcluster_controller.go:1147-1296 | a completed pass leaves a floating IP attached or up exactly when it did not catch it, or its DELETE left it so and the read after that failed |
| FipCleanup.FipLeftBehindIffUnrecorded | internal/controller/ovhcluster_controller.go:1147-1296 | with every call answered, exactly when it was neither reaped, nor recorded, nor attached to the recorded LB |
| FipCleanup.FipLeaksInTwoPasses | internal/controller/ovhcluster_controller.go:1255-1296 | with every call answered, two passes remove the finalizer while an unrecorded floating IP still exists, detached and not down |
| Deletion.UnrecordedFipForgotten | internal/controller/ovhcluster_controller.go:1149-1166 | a floating IP known only by association is not captured again once a DELETE has detached it |
| BestEffort.LeftExactly | internal/controller/ovhcluster_controller.go:1130-1246 | in every run, whatever fails, a delete pass that loses the finalizer without the keep annotation leaves exactly the DNS records, groups, API server pool and listener and network that no DELETE which went through was for, every other pool, listener, monitor and network, and of the gateways exactly the first of the cluster's name is being deleted anew, if listing and DELETE went through |
| BestEffort.PartsLeftIff | internal/controller/ovhcluster_controller.go:1169-1186 | every delete pass removes exactly the recorded API server pool and listener, each if its own DELETE goes through; the supervisor pair and everybody else's stay |
| BestEffort.FailedPassDoneIff | internal/controller/ovhcluster_controller.go:1110-1252 | with every call failing the cloud stays as it is, and the finalizer goes exactly with the keep annotation, or with no recorded LB and no recorded network of its own |
| Repeats.RecordPostedIff | internal/controller/ovhcluster_controller.go:437-482 | in every run a pass creates a DNS record exactly when it gets there and each record created before was lost with its patch or deleted since |
| Repeats.LostRecordPostedAgain | internal/controller/ovhcluster_controller.go:437-482 | two error-free passes, the first one's patch lost, create two records and leave one of them on record |
| Repeats.NetworkPostedIff | internal/controller/ovhcluster_controller.go:517-558 | in every run a pass creates a network exactly when one is due and each network created or adopted before was lost with its patch or cleared on a 404 since |
| Repeats.LbPostedIff | pkg/ovh/client.go:610-643 | creation posts an LB exactly when the POST goes through and the lookup failed or showed none of the name |
| Repeats.SecondLbPostedIff | pkg/ovh/client.go:610-643 | while an LB of the name exists, another is posted exactly when the POST goes through and the lookup failed or did not show it yet |
| DeletionProgress.PassWorks | internal/controller/ovhcluster_controller.go:1110-1252 | a cooperative pass keeps the invariant and ends Done, leaves less work, or changes nothing counted and leaves something to wait for |
| DeletionProgress.ElapseWorks | internal/controller/ovhcluster_controller.go:1255-1267 | a tick raises neither work nor time and lowers one of them while anything is being deleted |
| DeletionProgress.Converges | internal/controller/ovhcluster_controller.go:1110-1296 | every infinite sequence of saved cooperative delete passes and ticks removes the finalizer |
| DeletionProgress.BlockedForever | internal/controller/ovhcluster_controller.go:1233-1246 | a created network holding somebody else's live load balancer or gateway keeps the finalizer forever |
| DeletionProgress.ConvergesIffUnblocked | internal/controller/ovhcluster_controller.go:1110-1296 | deletion converges exactly when the network to delete is not blocked that way |
| Ports.MonitoredIff | internal/controller/ovhcluster_controller.go:1077-1105 | an error-free step leaves the pool monitored exactly when it was or no monitor of that name existed in the region |
| Ports.SecondClusterUnmonitored | internal/controller/ovhcluster_controller.go:1077-1105 | with another pool's monitor of that name in the region the step changes nothing, so the pool stays unmonitored |
| Ports.UnmonitoredForever | internal/controller/ovhcluster_controller.go:1077-1105 | in every run of any number of clusters, while one pool's monitor exists no other pool of that port ever gets one |
| Ports.ReplacedLbListens | internal/controller/ovhcluster_controller.go:684-690 | a replacement LB gets its supervisor listener exactly when none was recorded for the old one |
| Ports.UnservedForever | internal/controller/ovhcluster_controller.go:684-690 | in every run, while a supervisor listener is on record, a load balancer without one never gets it from the controller, and the old ID stays |
| Ports.ReadyServesIff | internal/controller/ovhcluster_controller.go:771-797 | a pass that ends Ready, whatever its calls answered, leaves the recorded LB with a port's listener exactly when it had one or none was on record, and with its pool likewise |
| ClusterScope.ClusterScope.ReconcileNormal | internal/controller/ovhcluster_controller.go:262-331 | the method's result and new state are those of the pass function the theorems are about |
| ClusterScope.ClusterScope.ReconcileNetwork | internal/controller/ovhcluster_controller.go:502-614 | adopts or creates the network, clears it on 404, waits until active, then finds or creates the subnet |
| ClusterScope.ClusterScope.ReconcileSecurityGroups | internal/controller/ovhcluster_controller.go:371-433 | the loop with its name map computes the group function |
| ClusterScope.ClusterScope.ByName | internal/controller/ovhcluster_controller.go:387-390 | the map holds the last listed group of each name and no other name |
| ClusterScope.ClusterScope.ReconcileLbPort | internal/controller/ovhcluster_controller.go:1007-1064 | listener, pool and monitor of one port, stopping at the first lookup or create error |
| ClusterScope.ClusterScope.EnsurePoolHealthMonitor | internal/controller/ovhcluster_controller.go:1077-1105 | creates the monitor unless one of that name is listed anywhere |
| ClusterScope.ClusterScope.FindListenerByName | pkg/ovh/client.go:842-860 | the scan returns the first listener of that name on that load balancer, or none if there is none |
| ClusterScope.ClusterScope.FindPoolByName | pkg/ovh/client.go:863-880 | the scan returns the first pool of that name on that load balancer, or none if there is none |
| ClusterScope.ClusterScope.ReconcileLoadBalancer | internal/controller/ovhcluster_controller.go:662-768 | adoption, lookup, forgetting on 404 and creation, as the load balancer function |
| ClusterScope.ClusterScope.CreateLoadBalancer | pkg/ovh/client.go:610-643 | reuse by name, POST when the lookup fails or finds none, then at most ten lookups |
| ClusterScope.ClusterScope.HandleExistingLb | internal/controller/ovhcluster_controller.go:771-835 | both ports, then the endpoint from the floating IP or the private VIP |
| ClusterScope.ClusterScope.ReconcileFloatingIp | internal/controller/ovhcluster_controller.go:846-954 | the floating IP from the LB, the record, a listing or an allocation, in that order |
| ClusterScope.ClusterScope.ExposeGatewayOfCluster | internal/controller/ovhcluster_controller.go:959-1000 | finds the gateway by name once and exposes it once |
| ClusterScope.ClusterScope.ReconcileDnsRecord | internal/controller/ovhcluster_controller.go:437-482 | creates a record whenever none is recorded and the endpoint is known |
| ClusterScope.ClusterScope.ReconcileDelete | internal/controller/ovhcluster_controller.go:1110-1252 | the method's result and new state are those of the delete function the theorems are about |
| ClusterScope.ClusterScope.CaptureFloatingIps | internal/controller/ovhcluster_controller.go:1147-1166 | the growing list is the recorded floating IP and the associated ones, without repeats |
| ClusterScope.ClusterScope.ListLoadBalancersByPrefix | pkg/ovh/client.go:670-689 | the appended list is the visible load balancers with the prefix, in listing order |
| ClusterScope.ClusterScope.CleanupFloatingIps | internal/controller/ovhcluster_controller.go:1268-1296 | the loop deletes and reads back each captured floating IP |
| MachineRuns.PoolMembership | internal/controller/ovhmachine_controller.go:613-730 | under any interleaving of machines with their own addresses and with listings succeeding, no pool holds two members with one address and port, and recorded member IDs name the machine's own members |
| MachineRuns.CallKeeps | internal/controller/ovhmachine_controller.go:613-730 | one API call of one machine keeps that for itself and disturbs no other machine |
| MachineRuns.TwinIffListingFails | internal/controller/ovhmachine_controller.go:643-663 | with the address already in the pool, list-then-add leaves a twin exactly when the listing fails |
| MachineRuns.RegisterTwinIffListingFails | internal/controller/ovhmachine_controller.go:702-725 | the same on port 9345 |
| Registration.ActiveRegistered | internal/controller/ovhmachine_controller.go:396-730 | with every call answered, a pass with an ACTIVE control-plane instance in hand leaves a member at its first private IPv4 address on port 6443 of the API server pool and, if the LB has a pool "rke2-register-pool", on port 9345 of one, both on record |
| Registration.MembersOfPass | internal/controller/ovhmachine_controller.go:613-730 | whatever is answered, a pass adds members only for a control-plane machine with an ACTIVE instance in hand, only at that address, and on 6443 and 9345 only; otherwise it changes no member and no recorded member ID |
| Registration.PortsAgree | internal/controller/ovhcluster_controller.go:57-66 | both controllers use 6443, 9345 and "rke2-register-pool" |
| MachineRuns.OneInstanceEach | internal/controller/ovhmachine_controller.go:284-337 | machines with distinct instance names never have two instances of one name, in any interleaving and whatever fails, as long as nobody else creates one of the name |
| MachineRuns.SharedNameCreatesTwice | internal/controller/ovhmachine_controller.go:319-337 | two machines that share a name and are past the lookup create it twice |
| MachineRuns.LostPatchLeavesInstance | internal/controller/ovhmachine_controller.go:756-823 | create, lost patch, delete: every call answered, the finalizer goes and the instance stays |
| MachineReadiness.ReadyIffActive | internal/controller/ovhmachine_controller.go:341-453 | after a pass that handled an instance Ready holds iff it is ACTIVE, and then the provider ID parses to region and recorded ID exactly when that pair is parseable |
| MachineReadiness.FailedIffError | internal/controller/ovhmachine_controller.go:413-448 | the machine is marked failed exactly when it was or the instance in hand is in ERROR; ACTIVE and ERROR end the pass, any other status asks to come back |
| MachineReadiness.AddressesInOrder | internal/controller/ovhmachine_controller.go:361-381 | the addresses are those of the IPv4 entries in order, external exactly for kind "public" |
| MachineReadiness.StaleReadyIff | internal/controller/ovhmachine_controller.go:289-303 | after any other pass Ready, provider ID and addresses are what they were, unless paused or without finalizer |
| MachineReadiness.VanishedStaysReady | internal/controller/ovhmachine_controller.go:289-303 | a Ready machine whose instance is gone creates a new one and stays Ready |
| MachineReadiness.MachineFinalizerIff | internal/controller/ovhmachine_controller.go:756-823 | the finalizer goes exactly with the keep annotation, with no recorded instance, or when its DELETE was accepted and the read after it counts as gone |
| MachineReadiness.DeleteFailsIff | internal/controller/ovhmachine_controller.go:793-803 | a delete pass fails exactly when the recorded instance's DELETE does with an error that is not a 404 |
| MachineReadiness.DeleteReaches | internal/controller/ovhmachine_controller.go:733-823 | from any point on, deletion adds no member, removes none but the recorded 6443 one and changes no instance but the recorded one |
| MachineReadiness.DeletedIff | internal/controller/ovhmachine_controller.go:733-823 | whatever a delete pass is answered, an instance not DELETED stays so exactly with the keep annotation, when it is not on record, or when its DELETE does not take effect at once; a member stays exactly unless it is the recorded 6443 one and its removal went through |
| MachineReadiness.UnrecordedInstanceLeft | internal/controller/ovhmachine_controller.go:756-823 | once every call is answered and the finalizer is gone, exactly the instances not on record are left |
| MachineProgress.ConvergesIff | internal/controller/ovhmachine_controller.go:230-338 | in every infinite sequence of saved error-free passes, while instances come up in their own time, the machine becomes Ready for good exactly when it is not paused, infrastructure and bootstrap data are there, and an instance is on record, to adopt, or to be found or created by name |
| MachineProgress.NeverReady | internal/controller/ovhmachine_controller.go:230-338 | otherwise no pass ever gets hold of a Ready instance |
| MachineProgress.SearchPass | internal/controller/ovhmachine_controller.go:284-338 | without an instance on record a pass adopts the one it is told to or the first of the name, gives up if there is none to adopt, and otherwise creates one and records it |
| MachineProgress.PassFailsIff | internal/controller/ovhmachine_controller.go:284-338 | whatever is answered, a pass fails exactly on an error for the recorded instance that is not a 404, without the one to adopt, or on an error from the lookup by name to the creation; registration never fails it |
| MachineProgress.NotYetRun | internal/controller/ovhmachine_controller.go:242-285 | a pass that is paused, lacks its finalizer, or waits for infrastructure or bootstrap data makes no call and ends, ends with the finalizer, or comes back |
| MachineProgress.InstanceNamed | internal/controller/ovhmachine_controller.go:321 | an instance is named cluster-machine where that is a legal label |
| MachineProgress.DeletionEndsIff | internal/controller/ovhmachine_controller.go:756-823 | in every infinite sequence of saved answered delete passes the finalizer goes exactly if some pass is told to keep, has nothing on record, finds the instance gone, or its DELETE takes effect at once |
| MachineScope.MachineScope.ReconcileNormal | internal/controller/ovhmachine_controller.go:230-338 | the pass in place ends exactly where the call-by-call model ends when nothing interrupts it |
| MachineScope.MachineScope.HandleExistingInstance | internal/controller/ovhmachine_controller.go:341-453 | the same from the moment an instance is at hand |
| MachineScope.MachineScope.EnsureLbPoolMember | internal/controller/ovhmachine_controller.go:613-677 | the same for registration on port 6443, which stops at an add error before 9345 |
| MachineScope.MachineScope.EnsureRegisterPoolMember | internal/controller/ovhmachine_controller.go:684-730 | the same for the supervisor pool found by name |
| MachineScope.MachineScope.ReconcileDelete | internal/controller/ovhmachine_controller.go:756-823 | the delete pass in place ends where the call-by-call model ends |
| MachineScope.MachineScope.FindPrivateIp | internal/controller/ovhmachine_controller.go:623-632 | the scan returns the first private IPv4 address, or the empty string |
| MachineScope.MachineScope.CollectAddresses | internal/controller/ovhmachine_controller.go:361-381 | the loop collects the IPv4 addresses in order, public ones as external |
| Names.GeneratedIsLabel | util/util.go:66-79 | every generated name is at most 63 of [a-z0-9-] without a hyphen at either end |
| Names.GenerateFixesExactlyLabels | util/util.go:66-79 | the generator leaves alone exactly the legal labels |
| Names.GenerateIdempotent | util/util.go:66-79 | generating from a generated name changes nothing |
| Names.GenerateSpells | util/util.go:66-79 | a text generates the label its characters become one by one: letters and digits stay, capitals become small, everything else a hyphen |
| Names.InstanceNamed | internal/controller/ovhmachine_controller.go:321 | names that make a legal label together give the instance name cluster-machine |
| Names.InstanceNamesDistinct | internal/controller/ovhmachine_controller.go:321 | within one cluster, machines whose joined names are legal share an instance name only if they are the same |
| Names.InstanceNameIsDnsLabelIff | util/util.go:66-79 | an instance name is a label of RFC 1035 exactly when the cluster's name starts with a letter |
| Names.LongNamesCollide | util/util.go:73-76 | past 63 characters two machines of a cluster share a name exactly when what is left of their names, trimmed, agrees |
| Names.PrefixReach | internal/controller/ovhcluster_controller.go:1197-1209 | deleting short-named cluster a by prefix reaches the LB of b exactly when b is a or starts with a followed by "-lb" |
| Names.LongClustersShareLb | util/util.go:68-79 | two long cluster names share one load balancer name exactly when their first 58 characters agree, trimmed |
| Names.ParseUndoesBuild | util/util.go:83-99 | parsing undoes building on exactly the pairs with a nonempty slash-free region and a nonempty ID |
| Names.BuildUndoesParse | util/util.go:83-99 | building undoes parsing on every provider ID that parses |
| Names.ProviderIdSpelled | util/util.go:83-99 | a provider ID is ovhcloud://region/instance |
| Retry.RetryBounds | pkg/ovh/client.go:103-132 | one to six calls, 2^calls - 2 seconds of sleep, success iff one of the first six calls succeeds after retryable failures only |
| Retry.CapNeverBinds | pkg/ovh/client.go:33-37 | every backoff that is slept is 2^(attempt+1) and at most 32 s, below the cap |
| Retry.Retry | pkg/ovh/client.go:103-132 | the retry loop computes that, with the bounds and the success condition |
| Retry.CreateBounds | pkg/ovh/client.go:610-643 | at most 854 s of sleep and twelve operations, of which the POST can only be the second and is made exactly when the first lookup fails or finds nothing |
| Retry.Create | pkg/ovh/client.go:610-643 | the create-and-poll loop computes that |
| Retry.BoundReached | pkg/ovh/client.go:610-643 | 854 s is reached |
| ClientLink.CreateLinks | pkg/ovh/client.go:610-643 | whenever each retried operation succeeds and shows what one call of the cloud model does, the retrying client finds, posts and calls exactly what the cloud model's step does |
| ApiErrors.ApiClassesByCode | pkg/ovh/errors.go:28-96 | through any wrapping an API error is not found exactly for 404, a conflict for 409, retryable for 429, 500, 502, 503 and 504, whatever its text, and never two of these |
| ApiErrors.NotFoundThroughWrapping | pkg/ovh/errors.go:28-39 | a wrapped text error is not found exactly when its text or some prefix says so |
| ApiErrors.RetryableThroughWrapping | pkg/ovh/errors.go:70-96 | the same for the retryable class |
| ApiErrors.AlreadyDeletingThroughWrapping | pkg/ovh/errors.go:59-67 | a conflict counts as deleting exactly when its message or the prefix names a pending state |
| ApiErrors.RefusedConnectionNotFound | pkg/ovh/client.go:178-188 | an ID containing 404 makes a refused connection both retryable and not found |
| Schemas.EachReferenceNamesOne | ui/pkg/capiovh/util/clusterclass-variables.js:126-190 | every generated reference names exactly one schema of the result, for every root |
| Schemas.RebuildShows | ui/pkg/capiovh/util/clusterclass-variables.js:126-190 | following references in any list that resolves them rebuilds the tree the flattener shows, and ends |
| Schemas.ShownIffFaithful | ui/pkg/capiovh/util/clusterclass-variables.js:150-185 | what is shown is the meaning of the schema exactly when items and map values are simple or objects and no leaf is an integer or number |
| Schemas.IntegerLeafLost | ui/pkg/capiovh/util/clusterclass-variables.js:157-185 | an integer leaf reads back as an empty object |
| Schemas.FlatteningLosesNothingIff | ui/pkg/capiovh/util/clusterclass-variables.js:126-190 | for every object- or map-rooted schema, following references rebuilds the tree the variable describes exactly when the root is an object or a map of objects with faithful properties |
| Schemas.MapOfStringsLost | ui/pkg/capiovh/util/clusterclass-variables.js:145-150 | a variable that is a map of strings comes out as one schema without fields |
| Schemas.ArrayRoot | ui/pkg/capiovh/util/clusterclass-variables.js:126-150 | the placeholder of an array-rooted variable refers to a schema with every item property under its key, as it is |
| Schemas.PushSchemas | ui/pkg/capiovh/util/clusterclass-variables.js:145-185 | the pushing loop with recursion computes the flattening |
| Conversion.ClusterRoundTrip | api/v1alpha1/conversion.go:31-163 | conversion fails iff some listener protocol is not TCP, UDP or SCTP; there and back is the identity iff no slice is empty but not nil |
| Conversion.ClusterFieldsKept | api/v1alpha1/conversion.go:31-163 | both directions carry every common field over to the field of the same name |
| Conversion.ClusterProjection | api/v1alpha1/conversion.go:31-163 | the reverse trip zeroes exactly the v1alpha2-only fields and is idempotent |
| Conversion.OldTargetKept | api/v1alpha1/conversion.go:51-79 | into a used target, old listeners and network survive exactly when the source has none |
| Conversion.ConvertListeners | api/v1alpha1/conversion.go:51-67 | the loop converts all listeners or fails at an unconvertible one |
| Conversion.MachineRoundTrip | api/v1alpha1/conversion.go:221-304 | the same round trip and projection for machines |
| Conversion.MachineFieldsKept | api/v1alpha1/conversion.go:221-304 | the same for machines |
| Conversion.TemplateRoundTrips | api/v1alpha1/conversion.go:345-387 | failure and identity conditions for both kinds of template |
| Conversion.TemplateProjections | api/v1alpha1/conversion.go:345-453 | the reverse trip of both kinds projects onto the common fields and is idempotent |
| Conversion.TemplateFieldsKept | api/v1alpha1/conversion.go:345-453 | both metadata and the spec fields of both kinds of template arrive where they belong, in both directions |
| Conversion.ConvertClusterList | api/v1alpha1/conversion.go:183-199 | the list loop converts all items or fails if one does |
| Conversion.ListRoundTrip | api/v1alpha1/conversion.go:183-218 | for any kind of item a list comes back unchanged iff it is not nil and every item does |
| Conversion.ClusterListRoundTrip | api/v1alpha1/conversion.go:183-218 | a cluster list converts iff every cluster does, and comes back unchanged iff it is not nil and every slice is tidy |
| Conversion.MachineListRoundTrip | api/v1alpha1/conversion.go:307-342 | the same for machine lists |
| Conversion.TemplateListRoundTrip | api/v1alpha1/conversion.go:390-425 | a cluster template list converts iff every template does, and comes back unchanged iff it is not nil and every slice is tidy |
| Conversion.MachineTemplateListRoundTrip | api/v1alpha1/conversion.go:456-491 | the same for machine template lists |

## Left out

- Uniqueness.NothingCreatedTwice: passes of different clusters do not interleave between API calls; two clusters racing for one monitor name are not covered, because each pass is one step of a run.
- Provenance.FipProvenance: assumes that no spec names and nobody else's change shows a placeholder as a floating IP, because identifiers are never reused.
- MachineRuns.PoolMembership: others may remove members but add none, because the property is about what the controller adds.
- GroupOwnership.OnlyOwnGroupsRemoved: assumes that clusters are not renamed and that nobody else gives the identifier of an old group to a new one, because identifiers are never reused.
- Wiring.RecordsAndWiring: assumes that the cluster is not renamed and that what others do keeps the connections and reuses no identifier; a foreign listener of a port's name on another port is excluded.
- MachineProgress.ConvergesIff: passes are not interrupted and every call succeeds; others change no set of instances, because that is what the faulty and interleaved runs of MachineRuns are for.
- Status patches are saved whole or lost whole; a patch that saves spec but not status is not modelled.
- Security-group rules, failure domains, LB flavor lookup, subnetRange, DNS record contents and conditions other than NetworkCreatedByController: they decide no branch of the steps modelled, or only add one more call that may fail.
- Flavor, image, bootstrap data and SSH key lookups of a new instance are one call that may fail.
- Volumes, node initialisation, etcd, metrics, logging, requeue durations and timestamps.
- OVHMachinePool, CreateFloatingIP and AssociateFloatingIPToLB: no controller path uses them.
- Admission webhooks, generated deepcopy code, HTTP signing, JSON encoding and the Kubernetes client.
- The exact message text of the OVH API library: an API error carries any text.
- Array-rooted variables in the flattener are modelled but only the object- and map-rooted case has the rebuilding theorem, since there the definitions are passed through unflattened.
- JavaScript's reordering of integer-like property keys, and collisions of random strings.
- TypeMeta, which the conversion functions do not touch.
