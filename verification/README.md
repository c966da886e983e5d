# A verified model of the KairosFleetMachine controller

The Kairos fleet infrastructure provider turns nodes that are already enrolled in an AuroraBoot
fleet into Cluster API machines. Its KairosFleetMachine controller claims a node, has it stage the
bootstrap cloud-config, reboots it, waits for it to come back and publishes its provider ID; on
deletion it gives the node back. The controller keeps no state of its own: each pass reads a few
annotations from the object, makes at most one state-changing call to the fleet, and writes the
object back in one patch at the end. The patch can be lost, the reply to the call can be lost, and
between passes nodes, other machines, operators and the clock do as they please.

This project models that protocol and proves what it keeps in every run.

| file | contents |
|---|---|
| `Clock.dfy` | instants, stamps of whole seconds, retry windows |
| `Fleet.dfy` | nodes, group pools and the claim table as values; one function per endpoint |
| `Server.dfy` | the same server as a class that updates its tables in place |
| `Commands.dfy` | choosing which command's outcome counts, out of an unpruned history |
| `Connection.dfy` | group lookup, the AuroraBoot connection, the KairosFleetCluster controller |
| `Machine.dfy` | one controller pass as a function of object, fleet and circumstances |
| `Reconciler.dfy` | the controller as classes that update the object in place, proved equal to that function |
| `Transitions.dfy` | the table of everything a pass can do, which every later proof rests on |
| `Stages.dfy` | what a machine's markers say about each other |
| `System.dfy` | many machines, one fleet: steps, runs and the system invariant |
| `Reports.dfy` | what each pass reports and leaves, from what it meets |
| `Ownership.dfy` | exclusive ownership, crash-safe claim and release, moves |
| `History.dfy` | what a run proves: provisioned is earned, outcomes are the machine's own |
| `Accounting.dfy` | counting and pacing commands |
| `Conserved.dfy` | where claims go, and which are left behind |
| `Teardown.dfy` | deletion finishes, and finishes properly |
| `Quiescence.dfy` | a rejoined node is left alone |
| `Progress.dfy` | four passes, a termination measure, never stuck |
| `Limits.dfy` | natural claims that are false, with the exact condition for each |
| `Runs.dfy` | concrete runs in which such claims fail |

Time is an integer number of nanoseconds; a stored stamp is that number floored to a whole second,
as Go's `RFC3339` layout does (the date-time of section 5.6 of RFC 3339 without a fraction). A run
is a sequence of states, each following from the one before by one action: a pass over a machine
(with its clock readings, reads, network fault and whether its patch was kept), the creation, move,
edit or deletion request of a machine, any change of the fleet that leaves alone the claims of UIDs
issued to machines, or the removal of a node. UIDs and node IDs are not reused, and a command gets a
non-empty ID new to its node. `Machine.World` lists all that a pass takes from outside.

The main results hold of every such run, for any number of machines. Where a promise needs more
(patches that arrive, heartbeats that do not go backwards), the lemma says so.

## Where the code differs from what is said about it

- The lifecycle documentation calls a disappeared node a terminal failure that the machine does not
  retry (docs/ARCHITECTURE.md:80-83). The code re-reads the node in every pass and never consults
  the recorded failure (`Limits.FailureIsIgnored`): after a single 404 for a node that is still
  there, the machine becomes Ready again, its failure still recorded (`Runs.RefusedMissingReady`).
  `Limits.ProvisionedChangesIff` says exactly when a machine becomes Ready, failed or not.
- A refused reboot is said to be retried (docs/ARCHITECTURE.md:64, 70-79). The heartbeat is looked at
  first, so a node that refuses the reboot and then sends one heartbeat is published as provisioned
  without ever rebooting (`Runs.RefusedMissingReady`). `Limits.RefusedRebootRetriedIff` says exactly
  when the retry happens.
- A heartbeat newer than the reboot request (docs/ARCHITECTURE.md:64) is off by up to a second, as
  the stamp it is compared with is floored (`Limits.GateBounds`, `Limits.GateExactIff`).
- Retries 60 s apart are in fact more than 59 s apart, for the same reason (`Limits.FullMinuteIff`,
  `Limits.ShortWindow`, `Accounting.CommandsAreAccountedAndPaced`).
- A claim can outlive its machine. While no node is recorded there is nothing for deletion to
  release, so a claim whose patch or whose reply was lost stays behind when the machine then goes or
  changes its UID (`Runs.ClaimLeftBehind`, and with every patch kept
  `Runs.ClaimLeftBehindThoughPatched`; `Conserved.AbandonedClaimLeaksIff` says exactly when). A
  recorded node stays behind when deletion finds the connection gone for good
  (`Conserved.UnreleasedNodeLeaksIff`).
- Provisioned can be lost again, through a pass or through a move that leaves the status behind
  (`Limits.ProvisionedChangesIff` says exactly when).
- The test server neither returns a released node to its pool nor gives commands distinct IDs. The
  model follows the contract of the client interface instead (internal/fleet/client.go:94-128).

## Model

| member | source | states |
|---|---|---|
| `Fleet.ClaimSound` | internal/controller/fakeauroraboot_test.go:135-158 | A claim keeps the claim table, the nodes and the pools consistent, hands out the key's own node or else the first free one of the group, is refused exactly when there is neither, and disturbs no other key |
| `Fleet.ClaimIdempotent` | internal/fleet/client.go:95-98 | The same key finds the same node again and changes nothing, whatever group it names the second time |
| `Fleet.ReleaseSound` | internal/controller/fakeauroraboot_test.go:213-238 | A release clears the claim if and only if the key holds it, frees the node, tells apart a missing node, an unclaimed one and one held by another key, and disturbs no other key |
| `Fleet.ReleaseIdempotent` | internal/controller/kairosfleetmachine_controller.go:338-362 | Releasing twice is releasing once; if the node went to another key in between, the second release is a claim mismatch and that key keeps it |
| `Fleet.CreateCommandSound` | internal/controller/fakeauroraboot_test.go:169-198 | A queued command goes to the end of its node's history and nowhere else; claims and pools are untouched |
| `Fleet.RemoveNodeSound` | internal/fleet/client.go:100-102 | Deleting a node takes its own claim away and no other |
| `Fleet.Conservation` | internal/fleet/client.go:118-121 | Free and held nodes partition the fleet, there are as many held nodes as claims, and each pool is as long as its group has free nodes |
| `Server.AuroraBoot.Enrol` | internal/controller/fakeauroraboot_test.go:76-86 | Seeding a node puts it at the end of its group's pool and makes it the one new free node |
| `Server.AuroraBoot.HandleClaim` | internal/controller/fakeauroraboot_test.go:135-158 | The in-place handler has the reply and the final tables of the claim function, from any consistent tables |
| `Server.AuroraBoot.HandleCreateCommand` | internal/controller/fakeauroraboot_test.go:169-198 | The in-place handler appends exactly the given command, or reports the node as not found |
| `Server.AuroraBoot.HandleRelease` | internal/controller/fakeauroraboot_test.go:213-238 | The in-place handler has the reply and the final tables of the release function, with the node back in its pool |
| `Commands.CommandState` | internal/controller/kairosfleetmachine_controller.go:439-474 | The scan picks the recorded command if an ID is recorded, else the last untimestamped one of the kind or else its earliest-listed most recent one; it reports success exactly if that one Completed, a refusal with its result exactly if it Failed or Expired, and nothing yet in any other phase or if there is none |
| `Commands.SelectionIsSpecified` | internal/controller/kairosfleetmachine_controller.go:446-465 | The scan's pick is the only one the order-free description of the right command admits |
| `Commands.OnlyTheRecordedCommand` | internal/controller/kairosfleetmachine_controller.go:434-455 | With an ID, histories that share that command give the same outcome however else they differ |
| `Commands.HarmlessInsertion` | internal/controller/kairosfleetmachine_controller.go:434-462 | Without an ID, a command of another kind, or one strictly older than the pick, inserted anywhere never changes the outcome; with no command of the kind, neither does one of another kind |
| `Commands.OrderIndependent` | internal/controller/kairosfleetmachine_controller.go:479-487 | With distinct timestamps, any two listings of the same commands give the same outcome |
| `Connection.ResolveGroupID` | internal/fleet/http.go:172-189 | The answer is a listed group's ID; an exact ID beats every name, else the first name match wins; not found if and only if neither exists |
| `Connection.ResolveIdempotent` | internal/fleet/http.go:177-188 | Resolving an answer again returns it unchanged, even if it is also some group's name |
| `Connection.GroupIsResolved` | internal/fleet/http.go:177-188 | The lookup succeeds with exactly the group that is meant, and fails as not found exactly if none is |
| `Connection.ConnectionAgreement` | internal/controller/kairosfleetmachine_controller.go:489-526 | The normal and the delete path connect on the same evidence; a failure is permanent if and only if no read failed |
| `Connection.FleetCluster.Reconcile` | internal/controller/kairosfleetcluster_controller.go:89-126 | A deleted cluster drops its finalizer at once, whatever its connection; otherwise provisioned if and only if it connects and has an endpoint, and retried only for the connection |
| `Clock.WindowArithmetic` | internal/controller/kairosfleetmachine_controller.go:381-403 | A window holds for at most 60 s and more than 59 s, and is over exactly at the stored second |
| `Reconciler.FleetMachine.NotReady` | internal/controller/kairosfleetmachine_controller.go:541-550 | Withdraws provisioned and Ready and touches nothing else, the recorded failure included |
| `Reconciler.FleetMachine.Fail` | internal/controller/kairosfleetmachine_controller.go:552-556 | Records the failure on top |
| `Reconciler.FleetMachine.OpenRetryWindow` | internal/controller/kairosfleetmachine_controller.go:381-385 | The window stays shut until more than the interval less a second has passed and is open once the interval has |
| `Reconciler.FleetClient.CommandState` | internal/controller/kairosfleetmachine_controller.go:439-465 | A list that cannot be read counts as undecided |
| `Reconciler.MachineReconciler.RebootFailed` | internal/controller/kairosfleetmachine_controller.go:370-376 | A refused reboot counts only while the node is Online |
| `Reconciler.MachineReconciler.ClaimNode` | internal/controller/kairosfleetmachine_controller.go:152-188 | The claim stage in place: resulting object, fleet, requeue and event, under every network fault |
| `Reconciler.MachineReconciler.ApplyConfig` | internal/controller/kairosfleetmachine_controller.go:191-213 | The apply stage in place; the closed retry window is dropped even when the call then fails |
| `Reconciler.MachineReconciler.RebootOnceApplied` | internal/controller/kairosfleetmachine_controller.go:218-259 | The reboot stage in place: refused, undecided and completed applies |
| `Reconciler.MachineReconciler.AwaitRejoin` | internal/controller/kairosfleetmachine_controller.go:263-315 | The rejoin stage in place: missing node, refused reboot, waiting, publishing |
| `Reconciler.MachineReconciler.ReconcileNormal` | internal/controller/kairosfleetmachine_controller.go:136-316 | The in-place pass refines the functional one that all run results are about |
| `Reconciler.MachineReconciler.ReconcileDelete` | internal/controller/kairosfleetmachine_controller.go:321-364 | Likewise for the delete pass |
| `Reconciler.MachineReconciler.ReconcileOne` | internal/controller/kairosfleetmachine_controller.go:82-134 | The whole pass on the stored objects: only this object is written, at the end, if the patch goes through, on error returns too; a patch that was installed and is lost always surfaces as an error, and nothing else changes what the pass returns |
| `Transitions.ReconcileShape` | internal/controller/kairosfleetmachine_controller.go:82-364 | Every pass is one of eight kinds, each with its guard, its exact effect on markers, status and fleet, and no effect on any other key's claim; a deleted machine loses its finalizer exactly when nothing hinders it |
| `Transitions.LostReplyLeavesMarks` | internal/controller/kairosfleetmachine_controller.go:201-209 | A command whose reply is lost leaves no trace on the object but the dropped retry stamp |
| `Transitions.OwnKeyEffect` | internal/controller/kairosfleetmachine_controller.go:169-181 | Only a claim or a release changes what is held under a machine's own key |
| `Stages.ChainKept` | internal/controller/kairosfleetmachine_controller.go:154-315 | Every pass keeps the stage chain: each marker implies the earlier ones and its command ID, an open retry window excludes a pending reboot and provisioned, provisioned is Ready and implies all stages and the provider ID |
| `Stages.ClaimRecordKept` | internal/controller/kairosfleetmachine_controller.go:154-188 | No pass changes a recorded node, the claim key in use or a published provider ID |
| `System.EnrolEvolves` | internal/controller/fakeauroraboot_test.go:76-86 | Enrolling a new node is among the moves a run allows the fleet |
| `System.NextInv` | internal/controller/kairosfleetmachine_controller.go:82-364 | Every action keeps the system invariant |
| `System.RunIsBehaviour` | internal/controller/kairosfleetmachine_controller.go:82-364 | In every run, every state satisfies the invariant and every pass is one of the table's |
| `System.StagesInOrder` | internal/controller/kairosfleetmachine_controller.go:154-315 | The stage chain holds of every machine in every reachable state, its finalizer guards a recorded node, and its claim key is a UID of its own |
| `Reports.ClosedGateReports` | internal/controller/kairosfleetmachine_controller.go:90-124 | Passes that end early touch nothing, and are errors exactly for an unreadable owner and a rejected owner reference |
| `Reports.WaitingReports` | internal/controller/kairosfleetmachine_controller.go:139-150 | The condition, requeue and error of a pass without bootstrap Secret name or without a usable connection |
| `Reports.GroupReports` | internal/controller/kairosfleetmachine_controller.go:159-167 | Unlistable groups are an error; a group listed under neither ID nor name is waited for 30 s as GroupNotFound |
| `Reports.ClaimReports` | internal/controller/kairosfleetmachine_controller.go:169-187 | Without a free node in the machine's own group, none is claimed and WaitingForCapacity asks for 30 s; else the key's node or the group's first free one is recorded as NodeClaimed; a lost request or reply is an error |
| `Reports.ApplyReports` | internal/controller/kairosfleetmachine_controller.go:191-213 | Inside a retry window nothing is sent; outside, the stamp goes whatever follows, every failure is an error, and else the Secret's data is queued as ApplyingCloudConfig |
| `Reports.RefusedApplyReports` | internal/controller/kairosfleetmachine_controller.go:219-236 | An apply seen Failed or Expired is given up as CloudConfigFailed with its result, its markers cleared and a window of 60 s opened |
| `Reports.PendingApplyReports` | internal/controller/kairosfleetmachine_controller.go:237-241 | An apply in no final phase, or unreadable, is waited for 15 s |
| `Reports.RebootReports` | internal/controller/kairosfleetmachine_controller.go:242-258 | After a Completed apply the reboot is queued under the same rules, as Rebooting |
| `Reports.RejoinReports` | internal/controller/kairosfleetmachine_controller.go:263-315 | An unread node is an error, a missing one NodeMissing without requeue, one that is back Ready with its provider ID |
| `Reports.RefusedRebootReports` | internal/controller/kairosfleetmachine_controller.go:289-296 | A refused reboot of an Online node that is not back is given up as RebootFailed with its result |
| `Reports.PendingRebootReports` | internal/controller/kairosfleetmachine_controller.go:289-299 | In every other case a node that is not back is waited for 15 s as WaitingForNodeRejoin |
| `Reports.ClaimsStayInGroup` | internal/controller/kairosfleetmachine_controller.go:157-175 | In every run, a new claim takes a free node of the group the machine names, by ID or else by name, and of no other |
| `Reports.RefusedApplyIsRetried` | internal/controller/kairosfleetmachine_controller.go:219-236 | In every run, a stored pass that finds the machine's own apply Failed or Expired always gives it up |
| `Reports.RefusedRebootIsRetried` | internal/controller/kairosfleetmachine_controller.go:271-296 | Likewise for its own reboot, on an Online node that is not back |
| `Ownership.NodesAreExclusive` | internal/controller/kairosfleetmachine_controller.go:152-188 | In every reachable state, live machines have recorded distinct nodes and distinct provider IDs, and the fleet holds each such node under its machine's key |
| `Ownership.CommandsReachTheOwner` | internal/controller/kairosfleetmachine_controller.go:201-247 | Every cloud-config and reboot that reaches a node is sent by the machine the fleet holds it for, and no other live machine has it recorded |
| `Ownership.KeyStep` | internal/fleet/client.go:95-121 | A UID's claim changes only by its own machine's claim or release or by the node's removal |
| `Ownership.ClaimIsCrashSafe` | internal/controller/kairosfleetmachine_controller.go:152-187 | However many patches are lost, at most one node is held under a machine's UID, and the first pass to persist a claim records that node |
| `Ownership.RecordsAreStable` | api/v1alpha1/kairosfleetmachine_types.go:49-52 | A recorded node, its claim key and a published provider ID never change again, through retries, lost readiness, moves and deletion |
| `Ownership.ReleaseIsMoveProof` | internal/controller/kairosfleetmachine_controller.go:405-414 | Until a machine's own release has reached the fleet its release is never a claim mismatch, whatever UIDs it has had: it succeeds, or the node is gone |
| `Ownership.ReleaseHappensOnce` | internal/controller/kairosfleetmachine_controller.go:338-362 | After a machine's release has reached the fleet, its repeated delete passes change nothing there, also when another machine has the node by then |
| `Ownership.PassesKeepToTheirKey` | internal/fleet/client.go:95-121 | No pass changes another key's claim |
| `History.ProvisionedIsEarned` | internal/controller/kairosfleetmachine_controller.go:190-315 | A provisioned machine has been through these actions, in order and for its recorded node: a claim under its key; an apply of the Secret's data as read; a reboot queued while the fleet shows that apply Completed; a pass that finds the node Online with a heartbeat later than one second before the reboot was queued |
| `History.EvidenceStep` | internal/controller/kairosfleetmachine_controller.go:190-315 | Every action leaves each machine's markers with the actions that earned them, and with no later command of the kind if the machine's own passes lose nothing |
| `History.OutcomesAreOwn` | internal/controller/kairosfleetmachine_controller.go:219-295 | Markers are cleared, and reboots queued, only on the outcome of the machine's own recorded command, which is its latest of the kind if its own passes have lost nothing |
| `History.VerdictIsOwn` | internal/controller/kairosfleetmachine_controller.go:434-465 | With distinct IDs, a recorded command's outcome is read from that command alone |
| `Accounting.CommandsAreAccountedAndPaced` | internal/controller/kairosfleetmachine_controller.go:191-258 | If a machine's own passes lose nothing, its applies equal observed apply failures plus the marked one, likewise its reboots, so at most two commands more than failures; two of a kind are more than 59 s apart and no hold exceeds 60 s |
| `Accounting.SpacedStep` | internal/controller/kairosfleetmachine_controller.go:192-196 | However soon a pass comes, it queues no command within 59 s of the previous one of its kind |
| `Conserved.ClaimsAreConserved` | internal/fleet/client.go:95-121 | In every run a UID holds a node if and only if a claim of it reached the fleet, was not released since, and the node has not been removed |
| `Conserved.HeldIffClaimed` | internal/controller/kairosfleetmachine_controller.go:152-188 | While a machine has recorded nothing, its UID holds a node if and only if one of its passes claimed that node and it has not been removed |
| `Conserved.AbandonedClaimLeaksIff` | internal/controller/kairosfleetmachine_controller.go:126-187 | When a machine vanishes or changes UID before recording its node, the old UID keeps a node until its removal if and only if one of its passes claimed it, and every such pass had lost its patch or its reply |
| `Conserved.UnreleasedNodeLeaksIff` | internal/controller/kairosfleetmachine_controller.go:326-339 | When a machine with a recorded node vanishes, its key keeps that node until its removal if and only if no release had reached the fleet and the last pass found the connection gone for good |
| `Conserved.NothingLeaks` | internal/controller/kairosfleetmachine_controller.go:321-364 | In calm runs, whatever other clients hold, the nodes held for machines are exactly those that live machines have recorded, and once all machines are gone no node is held for one |
| `Teardown.DeletionTerminates` | internal/controller/kairosfleetmachine_controller.go:321-364 | With k hindered delete passes a deleted machine is gone by pass k + 1; a missing cluster or Secret is no hindrance |
| `Teardown.DeleteNeverStuck` | internal/controller/kairosfleetmachine_controller.go:318-364 | A delete pass returns no error if and only if it finishes; otherwise an error brings about the next one and the object stays as it was |
| `Teardown.FinishesDeleteIff` | internal/controller/kairosfleetmachine_controller.go:325-363 | A delete pass finishes if and only if there is nothing to release, or the fleet answers, or it can never be reached again with no read having failed |
| `Teardown.FinalizerIsSafe` | internal/controller/kairosfleetmachine_controller.go:326-363 | A machine with a recorded node leaves only in its own delete pass, with the node no longer held under its key or the connection gone for good |
| `Quiescence.RejoinIsFinal` | internal/controller/kairosfleetmachine_controller.go:271-300 | Once the rejoin gate has held, no later pass queues a command or clears a marker, while heartbeats do not go backwards |
| `Progress.NeverStuck` | internal/controller/kairosfleetmachine_controller.go:110-316 | Every pass short of Provisioned or NodeMissing reports an error or a positive requeue, or changes the stored object, or awaits the bootstrap Secret with its patch kept |
| `Progress.ProvisionedInFourPasses` | internal/controller/kairosfleetmachine_controller.go:152-315 | A cooperative fleet provisions a fresh machine in exactly four passes: claim, apply, reboot, publish |
| `Progress.MeasureFalls` | internal/controller/kairosfleetmachine_controller.go:190-315 | Every unobstructed pass lowers failures left, stages left and remaining wait, lexicographically |
| `Progress.OneStageAtATime` | internal/controller/kairosfleetmachine_controller.go:190-315 | Outside a window such a pass completes one stage, or on a refusal falls back one, and the delay it asks for outlasts the window it opens |
| `Progress.ProvisionedByPass` | internal/controller/kairosfleetmachine_controller.go:136-316 | With R refused commands, a machine visited when it asks to be is provisioned by pass 4 + 2R, and not before |
| `Progress.ProvisioningIsBounded` | internal/controller/kairosfleetmachine_controller.go:136-316 | In every run, up to the action that provisions it, a live machine gets at most one pass per stage behind it, two more per stored refusal, and its hindered passes; exactly that many if none was hindered; so it is provisioned by pass 4 + 2R + H |
| `Limits.GateBounds` | internal/controller/kairosfleetmachine_controller.go:419-428 | From stamp written to stamp read: a heartbeat after the request is always accepted, and an accepted one is later than the request minus a second |
| `Limits.GateAcceptsAnOlderHeartbeat` | internal/controller/kairosfleetmachine_controller.go:251 | A heartbeat from before the request can be accepted |
| `Limits.GateExactIff` | internal/controller/kairosfleetmachine_controller.go:419-428 | The gate means after the request, for all heartbeats, if and only if the request fell on a whole second |
| `Limits.FullMinuteIff` | internal/controller/kairosfleetmachine_controller.go:381-403 | A window lasts the full minute if and only if it opens on a whole second |
| `Limits.ShortWindow` | internal/controller/kairosfleetmachine_controller.go:381-403 | A window that is over after 59.5 s |
| `Limits.UnprovisionedIff` | internal/controller/kairosfleetmachine_controller.go:263-300 | Exactly which passes withdraw provisioned |
| `Limits.PublishesIff` | internal/controller/kairosfleetmachine_controller.go:261-315 | Exactly which passes make an unprovisioned machine provisioned, one failed as NodeMissing included; the failure stays recorded |
| `Limits.ProvisionedChangesIff` | internal/controller/kairosfleetmachine_controller.go:136-316 | In every run, exactly which actions give a stored machine provisioned and which take it away |
| `Limits.RefusedRebootRetriedIff` | internal/controller/kairosfleetmachine_controller.go:271-300 | A refused reboot is retried if and only if no heartbeat later than the stored second has come in; otherwise the machine is provisioned |
| `Limits.FailureIsIgnored` | internal/controller/kairosfleetmachine_controller.go:136-316 | Two objects that differ only in the recorded failure get the same pass |
| `Limits.FailureClearedIff` | internal/controller/kairosfleetmachine_controller.go:220-235 | A recorded failure is cleared if and only if the pass gets to read a queued apply and finds it Failed or Expired; rejoining leaves it in place |
| `Runs.FirstClaim` | internal/controller/kairosfleetmachine_controller.go:169-187 | A first pass claims a node of the group for the machine's UID, whether or not the object gets to know of it |
| `Runs.ClaimLeftBehind` | internal/controller/kairosfleetmachine_controller.go:126-187 | A run with a lost patch that ends with no machines and a node still claimed |
| `Runs.ClaimLeftBehindThoughPatched` | internal/controller/kairosfleetmachine_controller.go:169-187 | The same with every patch kept: only the claim's reply is lost |
| `Runs.RefusedMissingReady` | internal/controller/kairosfleetmachine_controller.go:263-315 | A run in which a node refuses its reboot and its machine is provisioned all the same, is then failed as NodeMissing by one 404, and is Ready again one pass later, still carrying its failure |

## Left out

- Interleaving inside a pass: a pass is one step of a run, so the fleet does not change between its
  reads and its call. Passes of different machines interleave freely.
- Partly applied patches: the patch of metadata, spec and status is kept or lost as a whole. Stale
  cache reads are not modelled either.
- HTTP, JSON, URLs and the DTOs: a call has an abstract reply, and a fault under it is a lost request
  or a lost reply.
- Every error other than NoCapacity, 404 and ClaimMismatch is one error: the controller treats them
  alike.
- The Kubernetes client, watches and queues: a pass just happens. That a changed object, a requeue
  delay or an error brings about another pass is taken from controller-runtime.
- Calendar text: a stamp is absent, a whole second, or unparseable.
- Annotations edited by users, restored duplicates of an object and two management clusters acting at
  once: a move is one atomic change of UID, and only of machines that are not being deleted.
- Machines inherited from earlier builds, except that `Commands.CommandState` covers reading an
  outcome without a recorded ID and `Machine.ClaimKeyFor` falls back to the UID.
- Other finalizers on the object, and its removal by hand.
- A KairosFleetMachine whose connection is changed to another AuroraBoot: there is one fleet.
- An unset `status.initialization.provisioned` reads as false; condition messages, addresses and
  logging are dropped, except the command result quoted in a failure.
- Conditions, pause and owner checks of the cluster controller, which `Connection.FleetCluster`
  assumes passed.
- The reset command: the controller never sends it. Other clients may, as part of the fleet's own life.
- Server.AuroraBoot.HandleRelease: returns the node to its pool, as the client contract promises,
  where the test server does not.
- Server.AuroraBoot.HandleCreateCommand: takes the command's ID and timestamp as given, where the
  test server reuses one ID per kind and completes commands at once; phases change as part of the
  fleet's own life instead.
- Accounting.CommandsAreAccountedAndPaced: needs the patches and replies of the machine's own passes
  to arrive; a command whose marker is lost is queued again by design.
- Conserved.NothingLeaks: needs calm runs, for the reasons the runs in `Runs.dfy` and
  `Conserved.UnreleasedNodeLeaksIff` show.
- A 404 for an object that exists: only the read of a node may answer so. A release that did would let
  deletion finish with the node still claimed.
- Teardown.DeletionTerminates: counts passes, not time; a pause or a missing owner counts as a
  hindrance.
- Progress.ProvisionedByPass: takes the fleet found by each visit as given instead of deriving it
  from a run; `Progress.ProvisioningIsBounded` is the statement about runs, with lost patches, faults
  and early passes.
