# Bitcoin controller: model and proofs

The controller watches `BitcoinNetwork` objects. For each of them it keeps a headless service and a
stateful set in the Kubernetes API server, reports the pods it sees in the status, and tells the
bitcoin daemon in every ready pod, by JSON RPC, to add the other ready daemons as peers and to drop
all others. It acts on informer caches that lag, several workers run at once, any request may fail,
and failures are only logged. The RPC pass is skipped whenever the observed nodes equal the nodes of
the cached status (the `DeepEqual` gate).

The project has three layers.

* **The mesh and one sync pass** (`PeerMesh.dfy`). The peer list of a daemon is a set; a pass is a
  small machine that makes one RPC per step, in any order Go may choose, each served, refused, or
  carried out with the answer lost. A ledger ties every call made, failed or missed to what separated
  the mesh from a complete one.
* **The controller and its surroundings** (`Machine.dfy`). One `doRecon` call is a process that takes
  one lister lookup, one API call or one RPC per step. Users, informers, pods and daemons take steps in
  between. The server gives out versions per object and rejects stale writes and taken names; a cache
  may show any version that was ever stored, or nothing. `Safety`, `Writes`, `Freedom`, `Housing`, `Interleave`,
  `Isolation`, `GateKeeping`, `Noticing`, `Status`, `Converge`, `Finishing` and `Calls` prove what holds
  in all runs; `CounterRuns`, `TwoNodeRuns` and `MovedAddressRun` exhibit runs that go wrong,
  built with `Leading`.
* **The code** (`DeepCopy.dfy`, `Surroundings.dfy`, `BitcoinClient.dfy`, `PeerSync.dfy`,
  `BitcoinController.dfy`, `Workers.dfy`, `Setup.dfy`). The source's loops, in-place updates, pointers
  and shared cache objects as classes and methods. `Cluster` is the interface to the surroundings: each
  lookup, API call and RPC is one step of the machine, and a caller may only ask for the step that is
  due. So the verified `DoRecon` and `SyncNodes` can only produce runs of the machine, and what is proved of runs holds of them; this is
  spelled out in the contracts of `DoRecon`, `WorkerMainLoop` and `StartUp`, which builds all the
  objects and runs the loop. Fair weather, in the table below, means that no request fails meanwhile.

`WorkQueue.dfy` is the key flow: client-go's queue as a small assumed contract, workers, and event
handlers. `Together.dfy` joins it with the cluster: workers that hold keys make the steps of the calls,
and that a network has one call at a time is a theorem there. `dafny verify dfyconfig.toml` checks everything.

## The gate

The hardest question is whether skipping `syncNodes` is sound. The invariant (`GateKeeping.Settled`)
is that the daemons listed as ready in the stored status of every network form a complete mesh, or a
pass that is under way will make them so, or works on entirely different daemons. From a settled state
a step leads to a settled state **if and only if** it is harmless (`StepExact`), where harmless is a
condition on the step alone:

* an RPC of a pass over the listed daemons is served, or it is a poll of a row to which nothing is owed;
* a refused status write is followed by no pass, or by a pass over the listed set or a disjoint one;
* a daemon changes its list only if it is not listed, or its row is still to be polled, or the change
  does not touch what the row lacks or has too many;
* what a call for another network writes to a daemon meets the same condition (`OthersExact`). This
  matters when an address moves from one network to another while a pass of the first is under way.

Nothing is assumed about addresses. `GateSound` puts it together for runs in which nothing fails, no
listed daemon changes on its own, and no call reaches a daemon that another network lists.

A daemon that restarts does lose its list while it is listed. `Noticing` covers that: a network is
noticed if its stored status differs from what its pods show now, so that the gate will open. Settled
or noticed is kept by a step **if and only if** the step is mild (`MildExact`): while the status
differs, calls may fail, and daemons may lose their lists or have them changed by calls for other
networks, as long as the difference does not vanish unrepaired. `GateSoundIfNoticed` states the run theorem for one network: whatever happened before, a
reset that nobody saw included, if the pods show a difference afterwards and the steps from there on
are mild, its mesh is complete or the gate will open. `GateSoundWithResets` and `ResetsRefineUngated`
are the case without failed RPCs, refused writes, silent resets and silent RPCs of other networks,
`GateSoundByPods` says it in terms of requests, pods and statuses only, and `GateSoundHoused` for
addresses that stay with their networks, where RPCs need only be served. `FreshSkipSilent` says that a skip
with nothing different behind it would have sent no add and no remove.

`ReconcileConverges` says what a fault-free reconcile achieves without any invariant: it completes the
mesh if and only if the mesh was complete or the observed nodes differ from the stored status, and
`CanReconcile` that there is such a reconcile. `FailedRpcIsForever`, `RejectedWriteIsForever` and
`SilentResetIsForever` show that what a dropped hypothesis breaks is not repaired by reconciling;
`LostPollCounterRun`, `RefusedWriteCounterRun`, `LostListCounterRun` and `MovedAddressCounterRun` are
such runs from the start, one for each hypothesis.

## Where code and comments differ

The comment on `CredentialsForSecret` says that default credentials are returned on any error.
They are, but `syncNodes` ignores them in that case and keeps the pair of the client's own
configuration (`internal/controller/controller.go:469-475`); the model does the same. The comment on
`doRecon` does not mention that a key that cannot be split is never released
(`internal/controller/controller.go:563-566`); `WorkQueue.StuckExactly` says which keys those are.

## Model

| member | source | states |
|---|---|---|
| PeerMesh.PassAccounts | internal/controller/controller.go:414-481 | For every order of the three map loops and every pattern of failed calls: the debt left is exactly the failed add and remove calls plus the untouched debt of rows whose listing failed; it never grows; the calls made are exactly the initial debt of the rows listed, each once, and none about a daemon's own address; other rows are untouched; without failure the mesh is complete, own entries are kept, and the number of calls is the initial distance |
| PeerMesh.CallNeverAddsDebt | internal/controller/controller.go:430-451 | No single RPC, served or not, takes the mesh further from complete |
| PeerMesh.DriveNeverAddsDebt | internal/controller/controller.go:414-481 | Nor does any sequence of RPCs from any point of a pass, so neither connectNode nor syncNodes does |
| PeerMesh.OrderIndependence | internal/controller/controller.go:430-451 | Two fault-free passes in different orders end in the same mesh with the same set and number of calls |
| PeerMesh.LedgerKept | internal/controller/controller.go:414-452 | One RPC, whatever becomes of it, keeps the books of the pass balanced |
| PeerMesh.LedgerCloses | internal/controller/controller.go:416-451 | What a finished pass has paid and still owes, whatever failed on the way |
| PeerMesh.CleanPassMeshes | internal/controller/controller.go:428-451 | A finished pass without failure leaves each ready row as the other ready addresses, plus its own address exactly if it was there before |
| PeerMesh.SecondPassSilent | internal/controller/controller.go:422-451 | Over a complete mesh a pass makes no add or remove call and changes nothing |
| PeerMesh.MoveWellFormed | internal/controller/controller.go:426-428 | No call adds or removes anything out of place: additions are ready, removals are not, each goes to a ready row |
| PeerMesh.EntriesSize | internal/controller/controller.go:477-480 | A complete mesh over n daemons holds n(n-1) entries, own addresses aside |
| PeerMesh.CompleteMeans | internal/controller/controller.go:422-451 | A complete mesh, row by row: a ready daemon lists exactly the other ready ones, its own address aside |
| PeerMesh.RemovesComeLast | internal/controller/controller.go:428-451 | A row loses a peer only when every ready daemon it lacked has been offered to it |
| PeerMesh.MeshedIsComplete | internal/controller/controller.go:476-480 | What a clean pass over daemons that are up leaves is a complete mesh with n(n-1) entries |
| PeerSync.Synchronizer.AddMissing | internal/controller/controller.go:428-439 | The first loop makes exactly the additions pending at its row, in any order; it logs nothing in fair weather, and what it does not log did no harm |
| PeerSync.Synchronizer.RemoveStale | internal/controller/controller.go:440-451 | The second loop does so for the removals and leaves the row settled |
| PeerSync.Synchronizer.ConnectNode | internal/controller/controller.go:414-452 | One row of the pass: after it the row is done and all its requests are booked and well addressed; without a logged error no owed call failed, and in fair weather a daemon that is up causes none |
| PeerSync.Synchronizer.ConnectAll | internal/controller/controller.go:476-480 | All rows in any order; the pass is over, and clean if no error was logged |
| PeerSync.Synchronizer.SyncNodes | internal/controller/controller.go:455-481 | A whole pass: every ready daemon is asked for its list exactly once; every request goes to a ready daemon with the client's own port and a whole credential pair, which is the pair stored in the named secret, or user and password if no secret is named, or the client's own if the secret does not hold both; additions are ready daemons and removals are not; the debt never grows; if no error was logged, as in fair weather with all ready daemons up, the mesh is complete and the number of add and remove requests is the initial debt |
| PeerSync.Synchronizer.ReadyNodes | internal/controller/controller.go:458-463 | The rows of a pass are the addresses of the nodes marked ready |
| PeerSync.Synchronizer.ConfigFor | internal/controller/controller.go:467-475 | A fresh copy of the client's configuration; port, user and password are said field by field for a usable, an unusable and no secret; the client's stays as it is |
| PeerSync.Synchronizer.KeysOf | internal/controller/controller.go:422-425 | Exactly the addresses listed, connected or not and however often |
| PeerSync.PassReport | internal/controller/controller.go:455-481 | From the ledger and the requests of a finished pass: debt never grows; every ready daemon is asked once; without failure the mesh is complete and the add and remove requests number the initial debt |
| PeerSync.PassProper | internal/controller/controller.go:467-480 | The requests of a finished pass go to ready daemons, carry the pair that the named secret, the default or the client prescribes, add ready peers other than the daemon itself and remove others |
| BitcoinClient.BenignReplies | internal/bitcoinclient/bitcoinclient.go:12-51 | An answer is no error, or the benign code of its kind, exactly if the request was served by a daemon that is up; the list then is as wanted; such a daemon answers an add with -23 exactly if the peer was listed and a remove with -24 exactly if it was not |
| BitcoinClient.RpcClient.GetConfig | internal/bitcoinclient/bitcoinclient.go:130-132 | Hands out a copy that can be changed without changing the client |
| BitcoinClient.RpcClient.GetAddedNodes | internal/bitcoinclient/bitcoinclient.go:188-205 | Sends one request and fails exactly if it fails or the daemon is down; otherwise lists exactly the daemon's peers, in any order, with repetitions |
| BitcoinClient.RpcClient.AddNode | internal/bitcoinclient/bitcoinclient.go:176-179 | Sends exactly one request, to add that peer; the answer is -23 if the peer is already in the list; the books and the address trace are kept |
| BitcoinClient.RpcClient.RemoveNode | internal/bitcoinclient/bitcoinclient.go:182-185 | Sends exactly one request, to remove that peer; the answer is -24 if the peer is not in the list; the books and the address trace are kept |
| BitcoinClient.CallNoted | internal/bitcoinclient/bitcoinclient.go:136-173 | A request that expresses a call of the pass is booked once, addressed to the call's row, with the pass's port and credentials |
| BitcoinClient.BookedSize | internal/controller/controller.go:430-451 | The add and remove requests sent are as many as the distinct calls on the books |
| BitcoinClient.PolledOnce | internal/controller/controller.go:416-420 | The books of polls mean that each ready daemon was asked for its list once, and no other |
| Secrets.CredentialsForSecret | internal/secrets/secrets.go:26-47 | Fails exactly if a secret is named and lacks a key or cannot be read; the pair is wholly the secret's or wholly the default |
| Names.PodRefInjective | internal/controller/controller.go:382 | No two pairs of network and ordinal share a pod name, whatever the names contain |
| Names.DecimalInjective | internal/controller/controller.go:382 | Different ordinals have different numerals |
| Names.DecimalReads | internal/controller/controller.go:382 | The numeral of n consists of the digits 0 to 9, says n place by place, and has no zero in front |
| Names.DerivedNames | internal/controller/controller.go:382 | Service, set and pods of net are called net-svc, net-sts and net-sts-i in its namespace, i being the decimal numeral of the ordinal |
| Names.ChildRefsInjective | internal/controller/controller.go:497-498 | Different networks have different services and stateful sets |
| Names.KeyRoundTrip | internal/controller/controller.go:170-177 | A queue key leads back to its object exactly if neither namespace nor name has a slash |
| Names.KeyForms | internal/controller/controller.go:170-177 | A key is namespace/name, or the name alone without a namespace, and is read back so |
| Names.SplitKeyFails | internal/controller/controller.go:492-496 | doRecon rejects a key exactly if it has more than one slash |
| Names.SplitParts | internal/controller/controller.go:492 | Splitting at slashes: number of parts, no slash inside, and joining gives the key back |
| Names.ListerFindsNamespaced | internal/generated/listers/bitcoincontroller/v1/bitcoinnetwork.go:85-94 | The lister's lookup key is the informer's key exactly for namespaced objects |
| Status.ObservedExact | internal/controller/controller.go:381-398 | The list holds exactly the cached pods with ordinals below the wanted number, strictly increasing, each with its own data, no ordinal wrapped; it is nil exactly if there is none |
| Status.ListsDisjoint | internal/controller/controller.go:381-396 | No list holds a pod twice and two networks never list the same pod |
| Safety.StaleCacheSafety | internal/controller/controller.go:224-354 | In every run, however stale the caches: every child is controlled by, labelled for and named after one network (net-svc, net-sts), every service is headless, every set points to its service, every replica count asked for is one some stored version of the network had, and no call works for a version being deleted |
| Writes.SetWritten | internal/controller/controller.go:224-316 | A step of a call changes the stored sets if and only if a create meets a free name, or an update the very set the call has seen with another count, and the count is not negative; the new set has the count the call's network asks for, which some version wanted; an update changes nothing else |
| Writes.CountsAccounted | internal/controller/controller.go:531-539 | In every run, every replica count ever stored was asked for by a stored version of its network or set by a user |
| Writes.ServiceWritten | internal/controller/controller.go:321-354 | A step changes the stored services if and only if a create meets a free name; what is stored is headless, owned by and labelled for the network |
| Writes.StatusWritten | internal/controller/controller.go:399-407 | A step changes the stored networks if and only if it is the status update of a call that works from the current version and has found other nodes; only the status changes |
| Writes.FailuresPassedOver | internal/controller/controller.go:228-231 | After a failed create or update of a child or of the status the call goes on as if it had succeeded |
| Writes.LookupsSeeCaches | internal/controller/controller.go:499-531 | What a lookup decides depends on the caches only, not on what the server stores or the daemons hold |
| Writes.LookupsChangeNothing | internal/controller/controller.go:499-531 | Lookups change nothing outside their call |
| Writes.CallEffect | internal/bitcoinclient/bitcoinclient.go:176-185 | An add or remove request that gets through changes one entry of one list; one that fails changes nothing |
| Freedom.AnythingMayShow | internal/controller/controller.go:499-531 | Between any two steps of a call the caches may come to show any mix of versions ever stored, the pods any pods and the daemons any lists, so that what is proved of every run covers every lag |
| Safety.NextSane | internal/controller/controller.go:489-548 | Every step of anybody keeps versions identifying contents, caches showing stored versions, children fitting their names |
| Safety.AcceptedIsCurrent | internal/controller/controller.go:400-404 | A status the server accepts was computed from the very object it stores |
| Housing.DecideHoused | internal/controller/controller.go:381-398 | If no address moves between networks, a call only ever works on daemons in its own network's pods |
| Interleave.StepsCommute | internal/controller/controller.go:455-481 | Steps of calls for two networks with disjoint addresses commute |
| Interleave.InterleavingReduction | internal/controller/controller.go:208-219 | Any interleaving of any number of calls for networks with disjoint addresses, at the grain of one request, with any failures, ends as Sorted, the calls one network after the other, in any order of networks |
| Interleave.SortedKeepsSteps | internal/controller/controller.go:208-219 | Sorted holds of each network exactly the steps of the interleaving, in their order |
| Interleave.SortedGroups | internal/controller/controller.go:208-219 | In Sorted all steps of an earlier network come before those of a later one |
| Interleave.OnlyInOrder | internal/controller/controller.go:208-219 | The steps of one network picked from an interleaving are those at its places, all of them, in order |
| Isolation.RunUntouched | internal/controller/controller.go:489-548 | Calls for other networks with other addresses leave a network's object, children, call and daemons alone |
| Isolation.AllConverge | internal/controller/controller.go:551-569 | One fault-free call for each of several networks brings all of them to where they should be and touches no other |
| GateKeeping.StepExact | internal/controller/controller.go:540-547 | From a settled cluster a step leads to a settled one if and only if it is harmless |
| GateKeeping.OthersExact | internal/controller/controller.go:476-480 | A step of a call for another network keeps a network settled exactly if what it writes to a daemon does no harm there |
| GateKeeping.HousedNeverTrespasses | internal/controller/controller.go:476-480 | While ready pods of different networks have different addresses, no call reaches a daemon another network lists |
| GateKeeping.RpcExact | internal/controller/controller.go:430-451 | For an RPC: exactly if it is served or nothing was owed |
| GateKeeping.WriteExact | internal/controller/controller.go:404-407 | For the status write: exactly if it is accepted, or no pass over an overlapping different set follows |
| GateKeeping.DaemonExact | internal/controller/controller.go:540-547 | For a change of a daemon's own list: exactly if no listed row is disturbed |
| GateKeeping.SettledRun | internal/controller/controller.go:540-547 | In every harmless run the listed daemons of each idle network form a complete mesh |
| GateKeeping.SkippedPassSilent | internal/controller/controller.go:544-546 | Whenever the gate skips, the pass would have made no add and no remove call, in any order |
| GateKeeping.GatedRefinesUngated | internal/controller/controller.go:540-547 | Every run of the gated controller whose skips find a complete mesh is a run of the one that always synchronises, with passes that only poll put in, to the same cluster |
| GateKeeping.GateSound | internal/controller/controller.go:540-547 | Complete listed meshes and refinement, for the runs from a blank cluster with no failed RPC, no refused write, no change of a listed daemon and no RPC to a daemon listed by another network |
| Noticing.MildExact | internal/controller/controller.go:540-547 | A network that is settled or whose status differs from its pods stays so in a step if and only if the step is mild for it |
| Noticing.DifferenceIsSafe | internal/controller/controller.go:542-546 | While the status differs from the pods, no step of the network's own call, failed or not, loses the invariant |
| Noticing.GateSoundIfNoticed | internal/controller/controller.go:540-547 | In every run, with any failures and resets and addresses moving about: a network whose steps are mild since its status last differed from its pods has, when idle, a complete listed mesh or a status that differs |
| Noticing.GateSoundWithResets | internal/controller/controller.go:540-547 | The same for every run from a blank cluster with no failed RPC, no refused write, and no reset or RPC of another network at a listed daemon unless the status differs from the pods then |
| Noticing.GateSoundByPods | internal/controller/controller.go:540-547 | The same with a hypothesis on requests, pods and statuses only: no event makes a status that differs agree again |
| Noticing.GateSoundHoused | internal/controller/controller.go:540-547 | The same for addresses that stay with their networks: of RPCs and writes it asks only that they succeed |
| Noticing.ResetsRefineUngated | internal/controller/controller.go:540-547 | If skips read fresh pods, such a run ends where the controller that always synchronises ends |
| Noticing.FreshSkipSilent | internal/controller/controller.go:544-546 | A skip of a network whose status does not differ from its pods would have made no add and no remove call |
| Noticing.NextReconcileCompletes | internal/controller/controller.go:489-548 | From such a state the next fault-free reconcile with fresh caches completes the mesh |
| GateKeeping.PassCompletes | internal/controller/controller.go:433-450 | A finished pass leaves its daemons complete exactly if no owed call failed |
| GateKeeping.OtherPassHarms | internal/controller/controller.go:404-409 | A complete mesh over an overlapping, different set is not one over the listed set |
| Converge.ReconcileConverges | internal/controller/controller.go:489-548 | A fault-free reconcile with fresh caches leaves the service, the set with the wanted replicas exactly if not negative, the observed status; the mesh is complete exactly if it was or the observation changed; the result is stable |
| Converge.SettledIsMeshedOrOpen | internal/controller/controller.go:544 | The gate's invariant, or any change of the observed nodes, is what a reconcile needs to complete the mesh |
| Finishing.CanFinish | internal/controller/controller.go:489-548 | Every call in progress can be brought to its end without a failure |
| Finishing.ComesToPass | internal/controller/controller.go:511-546 | A fault-free reconcile whose observed nodes are new and not meshed yet comes to its pass, with no daemon touched before |
| Finishing.CanReconcile | internal/controller/controller.go:489-548 | There is a fault-free reconcile that achieves what ReconcileConverges says |
| Converge.StableForever | internal/controller/controller.go:511-547 | A stable network is left as it is by any number of reconciles, whatever fails; none gets to a create, an update or an RPC |
| Converge.ScaleDownNoticed | internal/controller/controller.go:381-398 | A status that lists a node beyond the wanted number is not what is observed, so the gate opens |
| Converge.ScaleDownEvicts | internal/controller/controller.go:442-451 | The first fault-free reconcile that sees fewer nodes wanted than the status lists completes the mesh of the survivors, none of which keeps the peer of a pod beyond the wanted number, even if it is ready; that daemon's own list is left alone |
| Converge.SilentResetIsForever | internal/controller/controller.go:544 | A list lost while the status stays the same is never repaired |
| CounterRuns.PassInMachine | internal/controller/controller.go:477-480 | A pass inside a call takes its RPCs as a pass on its own, so that the accounting applies |
| CounterRuns.FailedRpcIsForever | internal/controller/controller.go:433-450 | After a pass with failed RPCs the mesh lacks for good exactly what they owed; it is complete if and only if they owed nothing |
| CounterRuns.RejectedWriteIsForever | internal/controller/controller.go:404-409 | After a refused status write and a clean pass, once the pods look as before, the mesh of the listed daemons is incomplete for good |
| CounterRuns.LostPollCounterRun | internal/controller/controller.go:416-420 | A concrete run from the start with one lost poll ends in a stable network with an incomplete mesh |
| TwoNodeRuns.RefusedWriteCounterRun | internal/controller/controller.go:404-407 | A concrete run from the start, without a failed request, in which an edit makes a status write stale: the network is stable with an incomplete mesh for good |
| TwoNodeRuns.LostListCounterRun | internal/controller/controller.go:544 | A concrete run from the start in which a listed daemon loses its list unseen: stable and incomplete for good |
| MovedAddressRun.MovedAddressCounterRun | internal/controller/controller.go:476-480 | A concrete run from the start, without a failed request or a reset, in which an address moves to another network while the old network's pass is under way: the new owner is stable and incomplete for good |
| Calls.LookupFailureHarmless | internal/controller/controller.go:383-388 | A failed lookup of service, set or pod ends the reconcile: at no point of it can an RPC be sent, and the stored status and all daemons are as they were, gated or not |
| Calls.ListerFailureEnds | internal/controller/controller.go:511-530 | If the lister of services or of sets fails, the reconcile ends with no set created or scaled, and in the former case with nothing changed at all |
| Calls.EarlyStep | internal/controller/controller.go:489-543 | No step before the status write touches a status or a daemon |
| Calls.CallSound | internal/controller/controller.go:489-548 | A whole call keeps the caches, other calls and the safety invariant |
| Calls.CallConverges | internal/controller/controller.go:489-548 | The log of a complete fault-free call ends in a converged network |
| BitcoinController.Controller.DoRecon | internal/controller/controller.go:489-548 | The code takes exactly the steps of one call of the machine, writes to no object of the caches, returns false exactly for keys that cannot be split, and if no request of the call fails makes the network converge; its RPCs go to ready pods of the network of that key, each with the client's port and the pair of the secret that the cached network names in its own namespace; without a cached network there are none |
| BitcoinController.Controller.UpdateNetworkStatus | internal/controller/controller.go:371-409 | The loop returns the observed list, or nil with nothing stored, the latter only if a lookup failed, and ends where the gate decides |
| BitcoinController.Controller.ReadPodList | internal/controller/controller.go:381-398 | The loop over the pods returns exactly the observed list, with the reused variable leaking nothing, or fails if a lookup fails |
| BitcoinController.Controller.IsPodReady | internal/controller/controller.go:357-368 | True exactly if some Ready condition is True |
| BitcoinController.Controller.StoreStatus | internal/controller/controller.go:399-407 | The status update works on an unshared copy |
| BitcoinController.Controller.CopyWithStatus | internal/controller/controller.go:400-403 | The copy is fresh through and through and differs in the status only, nil and empty kept apart |
| BitcoinController.Controller.CreateHeadlessService | internal/controller/controller.go:321-354 | Takes the step that creates the service; failure and AlreadyExists are passed over |
| BitcoinController.Controller.CreateStatefulSet | internal/controller/controller.go:237-316 | Takes the step that creates the set; what it returns is the server's object with the wanted replicas, or nil |
| BitcoinController.Controller.UpdateStatefulSet | internal/controller/controller.go:224-232 | Takes the step that sets the replicas, on a copy of the cached set; what that step stores is said by Writes.SetWritten |
| BitcoinController.Controller.EnsureService | internal/controller/controller.go:511-520 | Looks the service up, creates it if missing, gives up on other errors |
| BitcoinController.Controller.EnsureStatefulSet | internal/controller/controller.go:522-539 | Looks the set up, creates or scales it, gives up on other errors |
| BitcoinController.Controller.SyncIfChanged | internal/controller/controller.go:542-546 | Status update and gated pass end the call; the requests go to ready pods with the pair of the secret that the network names in its namespace |
| DeepCopy.BitcoinNetworkStatus.DeepCopyInto | internal/apis/bitcoincontroller/v1/deepcopy_generated.go:121-129 | Equal value, fresh memory, nil kept |
| DeepCopy.BitcoinNetwork.DeepCopyInto | internal/apis/bitcoincontroller/v1/deepcopy_generated.go:28-35 | Equal value, the original unchanged, no memory shared |
| DeepCopy.BitcoinNetwork.DeepCopy | internal/apis/bitcoincontroller/v1/deepcopy_generated.go:38-45 | Equal value in an entirely fresh object |
| DeepCopy.BitcoinNetworkList.DeepCopyInto | internal/apis/bitcoincontroller/v1/deepcopy_generated.go:56-68 | Item by item equal and fresh, no two items sharing memory, nil kept |
| DeepCopy.CopyItems | internal/apis/bitcoincontroller/v1/deepcopy_generated.go:63-65 | The loop over the items |
| WorkQueue.AlwaysOrderly | internal/controller/controller.go:551-569 | In every run no key waits twice or is held by two workers, and a key asked for waits or is out |
| WorkQueue.WorkersApart | internal/controller/controller.go:212-215 | Two busy workers are at different networks |
| WorkQueue.ReleasedOnce | internal/controller/controller.go:563-566 | Every hand-out of a key is matched by one release, but for the one still out |
| WorkQueue.StuckExactly | internal/controller/controller.go:551-568 | A key is stuck exactly if it was handed out, nobody is at it and it has more than one slash; such a key is handed out at most once in all, others as often as released and at most once more |
| WorkQueue.NeverLost | internal/controller/controller.go:170-177 | A key put in, also while being worked on, is queued until handed out anew, or will be as soon as its worker is done |
| WorkQueue.Fifo | internal/controller/controller.go:553 | With n keys before it a key is handed out at the (n + 1)-st hand-out |
| WorkQueue.QuietMeansDone | internal/controller/controller.go:551-568 | With splittable keys only, an empty queue and idle workers mean that nothing is asked for or out |
| WorkQueue.ChildKeyRoundTrip | internal/controller/controller.go:181-199 | In every run, handleObject on any stored version of a child enqueues its network's key exactly if that is cached, and doRecon on the key derives that child's name |
| WorkQueue.DrainedExactly | internal/controller/controller.go:551-569 | What a single worker leaves of a queue |
| Workers.EventLoop.Enqueue | internal/controller/controller.go:170-177 | Adds the object's key |
| Workers.EventLoop.HandleObject | internal/controller/controller.go:181-199 | Adds namespace/name if and only if the first owner marked as controller is a BitcoinNetwork of that name cached in the object's namespace, else nothing |
| WorkQueue.HandledExactly | internal/controller/controller.go:181-199 | The key handleObject enqueues, by indices over the owners |
| Workers.EventLoop.Turn | internal/controller/controller.go:553-567 | One round: take, reconcile, release exactly if doRecon returned true |
| Workers.EventLoop.WorkerMainLoop | internal/controller/controller.go:551-569 | Every queued key is reconciled in its turn; if no request fails meanwhile all the networks converge |
| WorkQueue.AllQueued | internal/controller/controller.go:170-177 | Different networks, enqueued one after the other, are all queued in order |
| Setup.StartUp | internal/controller/controller.go:112-157 | A new controller over filled caches, one worker, all networks reported: they are reconciled one by one, converge if no request fails, and the queue is as new |
| Together.AlwaysOneCallEach | internal/controller/controller.go:551-569 | With any number of workers, failures and events: each call in progress is that of exactly one worker that holds its network's key, and no worker finds its network's call taken |
| Together.EveryRequestServed | internal/controller/controller.go:170-177 | If a network is enqueued and later the queue is empty and all workers are idle, a worker has opened a reconcile of it since, with any number of workers, failures and events |
| Together.StoryProjects | internal/controller/controller.go:208-219 | The cluster and the queue of such a run take runs of their own machines, so that what is proved of these holds |

## Left out

- Workers.EventLoop.WorkerMainLoop: covers one worker that nobody disturbs and that stops where the source would wait in Get; several workers, handlers and events are in the state machine of Together.
- GateKeeping.GateSound: excludes every change of a listed daemon's own list; Noticing.GateSoundIfNoticed and Noticing.GateSoundWithResets do not. It also excludes RPCs to daemons listed by another network, without which it fails (MovedAddressRun).
- BitcoinController.Controller.DoRecon: the caches do not change during the call (in Machine they do), because the informers' writes are not part of the heap model.
- BitcoinController.Controller.UpdateNetworkStatus: the nil check on the pod lister is left out, it only logs.
- doRecon, syncNodes and connectNode are split into several methods, for proofs of bearable size; order and branches are the source's.
- The reduction of interleavings and isolation assume one fixed assignment of addresses to networks (Housing), so that no address is ever carried by ready pods of two networks, not even one after the other; the gate theorems do not assume this.
- Setup.StartUp: one undisturbed worker, and the informers report each network once; handlers that go on adding keys and several workers are in Together.
- PeerSync.Synchronizer.ConnectNode: in the classes nobody else changes a daemon during a pass, so that -23 and -24 do not come up there; in Machine daemons change at any time, and BitcoinClient.BenignReplies covers every list.
- HTTP, JSON and the RPC envelope: a daemon is a set of peers that answers success, -23, -24 or another failure.
- Generated clientsets, informers and listers: a cache is a map that may show any past version, per object; objects without a namespace are found by no lister of networks (Machine.InLister).
- The API server: versions are counters per name, a write that changes nothing makes no new version, negative replica counts are refused, a status write changes only the status; UIDs and objects of others under the derived names are not modelled.
- Garbage collection of children of a deleted network: children may vanish at any time.
- The pod template of the stateful set (image, probe, environment, secret reference) and selectors beyond the app label.
- The pod cache is not tied to a pod store: it may hold anything, subject to Housing where stated.
- Secrets are a fixed map during a pass; any failed Get counts as a missing secret.
- Events, klog output, command line, signal handling, cache synchronisation at start, wait.Until and shutdown.
- Values in the queue that are not strings, and handleObject on values that are not API objects.
- DeepCopyObject and the nil receivers of the deep copies; metadata beyond name, namespace, version, deletion mark and owners.
