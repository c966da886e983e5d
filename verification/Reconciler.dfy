/** The controller itself: a machine object updated in place, the fleet client, and the reconcile
    methods, each proved to do what the functions of Machine say. */
module Reconciler {
  import opened Wrappers
  import opened Clock
  import opened Fleet
  import opened Connection
  import opened Machine
  import Commands
  import Server

  /** The object a pass works on: a copy of the stored one until the deferred patch. */
  class FleetMachine {
    const uid: Uid
    const group: string
    const deleting: bool
    var finalizer: bool
    var marks: Marks
    var providerID: Option<string>
    var status: Status

    constructor (o: Object)
      ensures State() == o
    {
      uid, group, deleting := o.uid, o.group, o.deleting;
      finalizer, marks, providerID, status := o.finalizer, o.marks, o.providerID, o.status;
    }

    function State(): Object
      reads this
    {
      Object(uid, group, deleting, finalizer, marks, providerID, status)
    }

    method NotReady(reason: Reason, detail: string)
      modifies this`status
      ensures State() == old(State()).(status := NotReadyStatus(old(status), reason, detail))
      ensures !status.provisioned && status.failure == old(status.failure)
    {
      status := status.(provisioned := false);
      status := status.(ready := ReadyFalse(reason, detail));
    }

    method Fail(reason: Reason)
      modifies this`status
      ensures State() == old(State()).(status := Status(false, ReadyFalse(reason, ""), Some(reason)))
    {
      status := status.(failure := Some(reason));
      NotReady(reason, "");
    }

    /** Opens the window before which no fresh command may be queued: it stays shut until the
        stored second is reached, more than `after` minus one second from now. */
    method OpenRetryWindow(now: int, after: int)
      modifies this`marks
      ensures State() == old(State()).(marks := old(marks).(retryAt := RetryWindow(now, after)))
      ensures forall t :: t <= now + after - SECOND ==> RetryWait(marks.retryAt, t) > 0
      ensures forall t :: t >= now + after ==> RetryWait(marks.retryAt, t) == 0
    {
      marks := marks.(retryAt := RetryWindow(now, after));
      FormatBounds(now + after);
    }
  }

  /** The fleet client: each call meets the pass's network fault. */
  class FleetClient {
    const server: Server.AuroraBoot

    constructor (server: Server.AuroraBoot)
      ensures this.server == server
    {
      this.server := server;
    }

    method ClaimNode(w: World, group: GroupId, key: Key) returns (reply: Reply<Node>, ghost deed: Deed)
      requires Valid(server.State())
      modifies server
      ensures Valid(server.State())
      ensures w.fault.RequestLost? ==>
        server.State() == old(server.State()) && reply == Err(TransportError) && deed == Idle
      ensures !w.fault.RequestLost? ==>
        var (f', sent) := Claim(old(server.State()), group, key);
        && server.State() == f' && reply == Received(w.fault, sent)
        && deed == if sent.Ok? then Claimed(sent.value.id, key) else Idle
    {
      if w.fault.RequestLost? {
        return Err(TransportError), Idle;
      }
      var sent := server.HandleClaim(group, key);
      return Received(w.fault, sent), if sent.Ok? then Claimed(sent.value.id, key) else Idle;
    }

    method SendCommand(w: World, n: NodeId, kind: CommandKind, config: string)
      returns (reply: Reply<Command>, ghost accepted: bool)
      requires Valid(server.State())
      modifies server`nodes
      ensures Valid(server.State())
      ensures w.fault.RequestLost? ==>
        server.State() == old(server.State()) && reply == Err(TransportError) && !accepted
      ensures !w.fault.RequestLost? ==>
        var command := Command(w.newId, kind, config, CommandPending, "", w.createdAt);
        var (f', sent) := CreateCommand(old(server.State()), n, command);
        && server.State() == f' && reply == Received(w.fault, sent) && accepted == sent.Ok?
    {
      if w.fault.RequestLost? {
        return Err(TransportError), false;
      }
      var command := Command(w.newId, kind, config, CommandPending, "", w.createdAt);
      var sent := server.HandleCreateCommand(n, command);
      return Received(w.fault, sent), sent.Ok?;
    }

    method ReleaseNode(w: World, n: NodeId, key: Key) returns (reply: Reply<bool>, ghost deed: Deed)
      requires Valid(server.State())
      modifies server
      ensures Valid(server.State())
      ensures w.fault.RequestLost? ==>
        server.State() == old(server.State()) && reply == Err(TransportError) && deed == Idle
      ensures !w.fault.RequestLost? ==>
        var (f', sent) := Release(old(server.State()), n, key);
        && server.State() == f' && reply == Received(w.fault, sent)
        && deed == if sent.Ok? then Released(n, key, sent.value) else Idle
    {
      if w.fault.RequestLost? {
        return Err(TransportError), Idle;
      }
      var sent := server.HandleRelease(n, key);
      return Received(w.fault, sent), if sent.Ok? then Released(n, key, sent.value) else Idle;
    }

    method ReadNode(w: World, n: NodeId) returns (reply: Reply<Node>)
      ensures reply == NodeReply(server.State(), w, n)
    {
      match w.nodeRead {
        case Answered => reply := server.HandleGetNode(n);
        case AnsweredMissing => reply := Err(NOT_FOUND);
        case NodeUnread => reply := Err(TransportError);
      }
    }

    /** commandState: the outcome of one command, undecided when the list cannot be read. */
    method CommandState(w: World, n: NodeId, id: string, kind: CommandKind) returns (verdict: Commands.Verdict)
      ensures verdict == CommandVerdict(server.State(), w, n, id, kind)
    {
      if w.commandsReadFails {
        return Commands.Undecided;
      }
      var reply := server.HandleGetCommands(n);
      if reply.Err? {
        return Commands.Undecided;
      }
      verdict := Commands.CommandState(reply.value, id, kind);
    }
  }

  /** The stored objects, and the controller that works on them. */
  class MachineReconciler {
    const client: FleetClient
    var store: map<nat, Object>

    constructor (client: FleetClient)
      ensures this.client == client && store == map[]
    {
      this.client := client;
      store := map[];
    }

    /** rebootFailed: asks for the reboot's outcome only while the node is Online. */
    method RebootFailed(w: World, fm: FleetMachine, node: Node) returns (verdict: Commands.Verdict)
      ensures verdict == RebootVerdict(client.server.State(), w, fm.marks, node)
      ensures node.phase != Online ==> verdict == Commands.Undecided
    {
      if node.phase != Online {
        return Commands.Undecided;
      }
      verdict := client.CommandState(w, fm.marks.nodeId, fm.marks.rebootCommand, RebootNode);
    }

    /** Stage 2: claim a node from the group, idempotently on the claim key. */
    method ClaimNode(fm: FleetMachine, w: World) returns (out: Outcome, ghost deed: Deed)
      requires Valid(client.server.State())
      modifies fm, client.server
      ensures Valid(client.server.State())
      ensures Pass(fm.State(), client.server.State(), out, deed)
           == ClaimStage(old(fm.State()), old(client.server.State()), w)
    {
      var claimKey := ClaimKeyFor(fm.State());
      if w.groups == None {
        return FAILED, Idle;
      }
      var group := ResolveGroupID(w.groups.value, fm.group);
      if group.Err? {
        if IsNotFound(group.error) {
          fm.NotReady(GroupNotFound, "");
          return Outcome(WAIT_FOR_CAPACITY, false), Idle;
        }
        return FAILED, Idle;
      }
      var claim: Reply<Node>;
      claim, deed := client.ClaimNode(w, group.value, claimKey);
      if claim.Err? {
        if IsNoCapacity(claim.error) {
          fm.NotReady(WaitingForCapacity, "");
          return Outcome(WAIT_FOR_CAPACITY, false), deed;
        }
        return FAILED, deed;
      }
      fm.marks := fm.marks.(nodeId := claim.value.id, claimKey := claimKey);
      fm.NotReady(NodeClaimed, "");
      return DONE, deed;
    }

    /** Stage 3: queue the bootstrap cloud-config, unmodified, outside any retry window. */
    method ApplyConfig(fm: FleetMachine, w: World) returns (out: Outcome, ghost deed: Deed)
      requires Valid(client.server.State())
      modifies fm, client.server
      ensures Valid(client.server.State())
      ensures Pass(fm.State(), client.server.State(), out, deed)
           == ApplyStage(old(fm.State()), old(client.server.State()), w)
    {
      var nodeID := fm.marks.nodeId;
      var wait := RetryWait(fm.marks.retryAt, w.now);
      if wait > 0 {
        return Outcome(wait, false), Idle;
      }
      fm.marks := fm.marks.(retryAt := Absent);
      if !w.bootstrap.Data? {
        return FAILED, Idle;
      }
      var cmd, accepted := client.SendCommand(w, nodeID, ApplyCloudConfig, w.bootstrap.data);
      deed := if accepted then ApplyQueued(nodeID, w.bootstrap.data, w.newId, w.queuedAt) else Idle;
      if cmd.Err? {
        return FAILED, deed;
      }
      fm.marks := fm.marks.(applied := true);
      if cmd.value.id != "" {
        fm.marks := fm.marks.(applyCommand := cmd.value.id);
      }
      fm.NotReady(ApplyingCloudConfig, "");
      return Outcome(WAIT_FOR_REJOIN, false), deed;
    }

    /** Stage 4: read the apply's outcome; retry it if refused, reboot once it completed. */
    method RebootOnceApplied(fm: FleetMachine, w: World) returns (out: Outcome, ghost deed: Deed)
      requires Valid(client.server.State())
      modifies fm, client.server
      ensures Valid(client.server.State())
      ensures Pass(fm.State(), client.server.State(), out, deed)
           == RebootStage(old(fm.State()), old(client.server.State()), w)
    {
      deed := Idle;
      var nodeID := fm.marks.nodeId;
      var applied := client.CommandState(w, nodeID, fm.marks.applyCommand, ApplyCloudConfig);
      if applied.Refused? {
        deed := ApplyRefused(nodeID, fm.marks.applyCommand);
        fm.NotReady(CloudConfigFailed, applied.message);
        fm.status := fm.status.(failure := None);
        fm.marks := fm.marks.(applied := false, applyCommand := "");
        fm.OpenRetryWindow(w.later, RETRY_CLOUD_CONFIG);
        return Outcome(RETRY_CLOUD_CONFIG, false), deed;
      }
      if applied.Undecided? {
        fm.NotReady(ApplyingCloudConfig, "");
        return Outcome(WAIT_FOR_REJOIN, false), Idle;
      }
      var wait := RetryWait(fm.marks.retryAt, w.now);
      if wait > 0 {
        return Outcome(wait, false), Idle;
      }
      fm.marks := fm.marks.(retryAt := Absent);
      var cmd, accepted := client.SendCommand(w, nodeID, RebootNode, "");
      deed := if accepted then RebootQueued(nodeID, fm.marks.applyCommand, w.newId, w.queuedAt) else Idle;
      if cmd.Err? {
        return FAILED, deed;
      }
      fm.marks := fm.marks.(rebootAt := Format(w.later));
      if cmd.value.id != "" {
        fm.marks := fm.marks.(rebootCommand := cmd.value.id);
      }
      fm.NotReady(Rebooting, "");
      return Outcome(WAIT_FOR_REJOIN, false), deed;
    }

    /** Stages 5 and 6: wait for the rejoin, retry a refused reboot, publish the provider ID. */
    method AwaitRejoin(fm: FleetMachine, w: World) returns (out: Outcome, ghost deed: Deed)
      requires Valid(client.server.State())
      modifies fm, client.server
      ensures Valid(client.server.State())
      ensures Pass(fm.State(), client.server.State(), out, deed)
           == RejoinStage(old(fm.State()), old(client.server.State()), w)
    {
      deed := Idle;
      var nodeID := fm.marks.nodeId;
      var node := client.ReadNode(w, nodeID);
      if node.Err? {
        if IsNotFound(node.error) {
          fm.Fail(NodeMissing);
          return DONE, Idle;
        }
        return FAILED, Idle;
      }
      if !RejoinedAfterReboot(fm.marks.rebootAt, node.value) {
        var reboot := RebootFailed(w, fm, node.value);
        if reboot.Refused? {
          deed := RebootRefused(nodeID, fm.marks.rebootCommand);
          fm.NotReady(Reason.RebootFailed, reboot.message);
          fm.marks := fm.marks.(rebootAt := Absent, rebootCommand := "");
          fm.OpenRetryWindow(w.later, RETRY_REBOOT);
          return Outcome(RETRY_REBOOT, false), deed;
        }
        fm.NotReady(WaitingForNodeRejoin, "");
        return Outcome(WAIT_FOR_REJOIN, false), Idle;
      }
      fm.providerID := Some(PROVIDER_ID_PREFIX + node.value.id);
      fm.status := fm.status.(provisioned := true);
      fm.status := fm.status.(ready := ReadyTrue);
      return DONE, Rejoined(node.value.id, node.value.heartbeat.value);
    }

    /** One pass over a machine that is not being deleted: the first stage not yet passed runs. */
    method ReconcileNormal(fm: FleetMachine, w: World) returns (out: Outcome, ghost deed: Deed)
      requires Valid(client.server.State())
      modifies fm, client.server
      ensures Valid(client.server.State())
      ensures Pass(fm.State(), client.server.State(), out, deed)
           == Normal(old(fm.State()), old(client.server.State()), w)
    {
      if !w.bootstrapNamed {
        fm.NotReady(WaitingForBootstrapData, "");
        return DONE, Idle;
      }
      var fc := FleetClientFor(w.infra);
      if fc.NotYet? {
        fm.NotReady(WaitingForClusterInfrastructure, "");
        return Outcome(fc.requeueAfter, fc.failed), Idle;
      }
      if fm.marks.nodeId == "" {
        out, deed := ClaimNode(fm, w);
      } else if !fm.marks.applied {
        out, deed := ApplyConfig(fm, w);
      } else if fm.marks.rebootAt.Absent? {
        out, deed := RebootOnceApplied(fm, w);
      } else {
        out, deed := AwaitRejoin(fm, w);
      }
    }

    /** One pass over a machine being deleted: release the node, then drop the finalizer. */
    method ReconcileDelete(fm: FleetMachine, w: World) returns (out: Outcome, ghost deed: Deed)
      requires Valid(client.server.State())
      modifies fm, client.server
      ensures Valid(client.server.State())
      ensures Pass(fm.State(), client.server.State(), out, deed)
           == Delete(old(fm.State()), old(client.server.State()), w)
    {
      deed := Idle;
      var nodeID := fm.marks.nodeId;
      if nodeID != "" {
        var fc := FleetClientForDelete(w.infra);
        if fc.Unconnected? {
          if !IsPermanentlyUnresolvable(fc.error) {
            return FAILED, Idle;
          }
        } else {
          var reply: Reply<bool>;
          reply, deed := client.ReleaseNode(w, nodeID, ClaimKeyFor(fm.State()));
          if reply.Err? && !IsNotFound(reply.error) && !IsClaimMismatch(reply.error) {
            return FAILED, deed;
          }
        }
      }
      fm.finalizer := false;
      return DONE, deed;
    }

    /** One pass: read the object, work on the copy, and write it back at the end if the patch
        goes through. The store keeps every other object, and drops this one once a deleted
        object has lost its finalizer. */
    method ReconcileOne(mid: nat, w: World) returns (out: Outcome, ghost deed: Deed)
      requires mid in store && !Gone(store[mid]) && Valid(client.server.State())
      modifies this`store, client.server
      ensures Valid(client.server.State())
      ensures var r := Reconcile(old(store[mid]), old(client.server.State()), w);
        && client.server.State() == r.fleet
        && out == Reported(r.out, w) && deed == r.deed
        && store == Written(old(store), mid, r.obj, w.patchKept)
      ensures var own := Reconcile(old(store[mid]), old(client.server.State()), w).out;
        var installed := w.gate.OwnerReferenceRejected? || w.gate.Paused? || w.gate.Open?;
        && out.requeueAfter == own.requeueAfter
        && out.failed == (own.failed || (installed && !w.patchKept))
      ensures forall other :: other != mid ==>
        (other in store <==> other in old(store)) && (other in store ==> store[other] == old(store)[other])
    {
      var fm := new FleetMachine(store[mid]);
      match w.gate {
        case OwnerUnreadable => return FAILED, Idle;
        case OwnerMissing => return DONE, Idle;
        case ClusterMissing => return DONE, Idle;
        case OwnerReferenceRejected => out, deed := FAILED, Idle;
        case Paused => out, deed := DONE, Idle;
        case Open =>
          if !fm.finalizer {
            fm.finalizer := true;
          }
          if fm.deleting {
            out, deed := ReconcileDelete(fm, w);
          } else {
            out, deed := ReconcileNormal(fm, w);
          }
      }
      if w.patchKept {
        store := store[mid := fm.State()];
        if fm.deleting && !fm.finalizer {
          store := store - {mid};
        }
      } else {
        out := out.(failed := true);
      }
    }
  }
}
