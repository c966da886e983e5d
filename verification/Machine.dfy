/** The KairosFleetMachine object and one controller pass over it, as functions from the object,
    the fleet and the pass's circumstances to the object in memory at the deferred patch, the
    fleet afterwards, the result and the one fleet event the pass caused or observed. */
module Machine {
  import opened Wrappers
  import opened Clock
  import opened Fleet
  import opened Connection
  import Commands

  type Uid = Key

  const PROVIDER_ID_PREFIX := "kairos-fleet://"

  /** The annotations the controller manages; the empty string is an absent annotation. */
  datatype Marks = Marks(nodeId: NodeId, claimKey: Key,
                         applied: bool, applyCommand: string,
                         rebootAt: Stamp, rebootCommand: string,
                         retryAt: Stamp)

  const NO_MARKS := Marks("", "", false, "", Absent, "", Absent)

  datatype Reason =
    | WaitingForBootstrapData | WaitingForClusterInfrastructure | GroupNotFound | WaitingForCapacity
    | NodeClaimed | ApplyingCloudConfig | CloudConfigFailed | Rebooting | RebootFailed
    | WaitingForNodeRejoin | NodeMissing

  /** The Ready condition; `detail` is the command result quoted in the message, if any. */
  datatype Condition = NoCondition | ReadyFalse(reason: Reason, detail: string) | ReadyTrue

  /** `provisioned` reads an unset pointer as false. */
  datatype Status = Status(provisioned: bool, ready: Condition, failure: Option<Reason>)

  const NEW_STATUS := Status(false, NoCondition, None)

  datatype Object = Object(uid: Uid, group: string, deleting: bool, finalizer: bool,
                           marks: Marks, providerID: Option<string>, status: Status)

  /*** What a pass meets ***/

  /** What comes of the checks before the finalizer is added. */
  datatype Gate = OwnerUnreadable | OwnerMissing | ClusterMissing | OwnerReferenceRejected | Paused | Open

  datatype BootstrapSecret = SecretUnreadable | NoValueKey | Data(data: string)

  /** The network under the pass's one state-changing call: it works, or the request is lost, or
      the server acts but the reply is lost. */
  datatype Fault = Clean | RequestLost | ReplyLost

  /** A read of the node: it gives the fleet's answer, or answers 404 regardless, or fails. */
  datatype NodeRead = Answered | AnsweredMissing | NodeUnread

  datatype World = World(
    gate: Gate,
    bootstrapNamed: bool, bootstrap: BootstrapSecret,
    infra: Read<Link>,
    groups: Option<seq<Group>>,        // None: listing the groups failed
    fault: Fault,
    nodeRead: NodeRead, commandsReadFails: bool,
    now: int, queuedAt: int, later: int,  // clock before, at and after the state-changing call
    newId: string, createdAt: Option<int>, // what the server gives a queued command
    patchKept: bool)

  /** What a pass returns: a requeue delay, or an error. */
  datatype Outcome = Outcome(requeueAfter: int, failed: bool)

  const DONE := Outcome(0, false)
  const FAILED := Outcome(0, true)

  /** The fleet event of a pass: a call that took effect, or a decisive observation. */
  datatype Deed =
    | Idle
    | Claimed(node: NodeId, key: Key)
    | ApplyQueued(node: NodeId, secret: string, id: string, at: int)
    | ApplyRefused(node: NodeId, id: string)
    | RebootQueued(node: NodeId, seen: string, id: string, at: int)
    | RebootRefused(node: NodeId, id: string)
    | Rejoined(node: NodeId, heartbeat: int)
    | Released(node: NodeId, key: Key, cleared: bool)

  datatype Pass = Pass(obj: Object, fleet: FleetState, out: Outcome, deed: Deed)

  /*** Helpers ***/

  function ClaimKeyFor(o: Object): Key {
    if o.marks.claimKey != "" then o.marks.claimKey else o.uid
  }

  function NotReadyStatus(s: Status, reason: Reason, detail: string): Status {
    s.(provisioned := false, ready := ReadyFalse(reason, detail))
  }

  function Unready(o: Object, reason: Reason): Object {
    o.(status := NotReadyStatus(o.status, reason, ""))
  }

  /** Whether the node is back after the reboot: Online with a heartbeat after the stored second. */
  predicate RejoinedAfterReboot(rebootAt: Stamp, node: Node) {
    && node.phase == Online
    && node.heartbeat.Some?
    && Parse(rebootAt).Some?
    && node.heartbeat.value > Parse(rebootAt).value
  }

  /** What the caller sees of a server's reply. */
  function Received<T>(fault: Fault, reply: Reply<T>): Reply<T> {
    if fault.Clean? then reply else Err(TransportError)
  }

  /** What a read of node n gives. */
  function NodeReply(f: FleetState, w: World, n: NodeId): Reply<Node> {
    match w.nodeRead
    case Answered => GetNode(f, n)
    case AnsweredMissing => Err(NOT_FOUND)
    case NodeUnread => Err(TransportError)
  }

  /** Reads a command's outcome; a failing list reads as undecided. */
  function CommandVerdict(f: FleetState, w: World, n: NodeId, id: string, kind: CommandKind): Commands.Verdict {
    var reply := if w.commandsReadFails then Err(TransportError) else GetCommands(f, n);
    match reply
    case Err(_) => Commands.Undecided
    case Ok(cmds) => Commands.RecordedVerdict(cmds, id, kind)
  }

  /** A refused reboot counts only while the node is Online. */
  function RebootVerdict(f: FleetState, w: World, m: Marks, node: Node): Commands.Verdict {
    if node.phase != Online then Commands.Undecided
    else CommandVerdict(f, w, m.nodeId, m.rebootCommand, RebootNode)
  }

  /*** The stages of reconcileNormal ***/

  function ClaimStage(o: Object, f: FleetState, w: World): Pass
    requires Valid(f)
  {
    var resolved := match w.groups
      case None => Err(TransportError)
      case Some(groups) => ResolveGroup(groups, o.group);
    match resolved
    case Err(e) =>
      if IsNotFound(e) then Pass(Unready(o, GroupNotFound), f, Outcome(WAIT_FOR_CAPACITY, false), Idle)
      else Pass(o, f, FAILED, Idle)
    case Ok(groupId) =>
      if w.fault.RequestLost? then Pass(o, f, FAILED, Idle) else
      var (f', sent) := Claim(f, groupId, ClaimKeyFor(o));
      ClaimAnswered(o, w, f', sent)
  }

  /** The rest of the claim stage, once the server has answered `sent`. */
  function ClaimAnswered(o: Object, w: World, f': FleetState, sent: Reply<Node>): Pass {
    var key := ClaimKeyFor(o);
    var deed := if sent.Ok? then Claimed(sent.value.id, key) else Idle;
    match Received(w.fault, sent)
    case Err(e) =>
      if IsNoCapacity(e) then Pass(Unready(o, WaitingForCapacity), f', Outcome(WAIT_FOR_CAPACITY, false), deed)
      else Pass(o, f', FAILED, deed)
    case Ok(node) =>
      Pass(Unready(o.(marks := o.marks.(nodeId := node.id, claimKey := key)), NodeClaimed), f', DONE, deed)
  }

  function ApplyStage(o: Object, f: FleetState, w: World): Pass {
    var wait := RetryWait(o.marks.retryAt, w.now);
    if wait > 0 then Pass(o, f, Outcome(wait, false), Idle) else
    var o1 := o.(marks := o.marks.(retryAt := Absent));
    match w.bootstrap
    case SecretUnreadable => Pass(o1, f, FAILED, Idle)
    case NoValueKey => Pass(o1, f, FAILED, Idle)
    case Data(data) =>
      if w.fault.RequestLost? then Pass(o1, f, FAILED, Idle) else
      var n := o.marks.nodeId;
      var command := Command(w.newId, ApplyCloudConfig, data, CommandPending, "", w.createdAt);
      var (f', sent) := CreateCommand(f, n, command);
      var deed := if sent.Ok? then ApplyQueued(n, data, w.newId, w.queuedAt) else Idle;
      match Received(w.fault, sent)
      case Err(_) => Pass(o1, f', FAILED, deed)
      case Ok(c) =>
        var marks := o1.marks.(applied := true, applyCommand := if c.id != "" then c.id else o.marks.applyCommand);
        Pass(Unready(o1.(marks := marks), ApplyingCloudConfig), f', Outcome(WAIT_FOR_REJOIN, false), deed)
  }

  function RebootStage(o: Object, f: FleetState, w: World): Pass {
    var m := o.marks;
    match CommandVerdict(f, w, m.nodeId, m.applyCommand, ApplyCloudConfig)
    case Refused(message) =>
      var marks := m.(applied := false, applyCommand := "", retryAt := RetryWindow(w.later, RETRY_CLOUD_CONFIG));
      var status := NotReadyStatus(o.status, CloudConfigFailed, message).(failure := None);
      Pass(o.(marks := marks, status := status), f, Outcome(RETRY_CLOUD_CONFIG, false),
           ApplyRefused(m.nodeId, m.applyCommand))
    case Undecided =>
      Pass(Unready(o, ApplyingCloudConfig), f, Outcome(WAIT_FOR_REJOIN, false), Idle)
    case Succeeded =>
      SendReboot(o, f, w)
  }

  /** The rest of the reboot stage, once the apply is seen completed. */
  function SendReboot(o: Object, f: FleetState, w: World): Pass {
    var m := o.marks;
    var wait := RetryWait(m.retryAt, w.now);
    if wait > 0 then Pass(o, f, Outcome(wait, false), Idle) else
    var o1 := o.(marks := m.(retryAt := Absent));
    if w.fault.RequestLost? then Pass(o1, f, FAILED, Idle) else
    var command := Command(w.newId, RebootNode, "", CommandPending, "", w.createdAt);
    var (f', sent) := CreateCommand(f, m.nodeId, command);
    var deed := if sent.Ok? then RebootQueued(m.nodeId, m.applyCommand, w.newId, w.queuedAt) else Idle;
    match Received(w.fault, sent)
    case Err(_) => Pass(o1, f', FAILED, deed)
    case Ok(c) =>
      var marks := o1.marks.(rebootAt := Format(w.later),
                             rebootCommand := if c.id != "" then c.id else m.rebootCommand);
      Pass(Unready(o1.(marks := marks), Rebooting), f', Outcome(WAIT_FOR_REJOIN, false), deed)
  }

  function RejoinStage(o: Object, f: FleetState, w: World): Pass {
    var m := o.marks;
    match NodeReply(f, w, m.nodeId)
    case Err(e) =>
      if IsNotFound(e) then
        Pass(o.(status := NotReadyStatus(o.status, NodeMissing, "").(failure := Some(NodeMissing))), f, DONE, Idle)
      else Pass(o, f, FAILED, Idle)
    case Ok(node) =>
      if RejoinedAfterReboot(m.rebootAt, node) then
        Pass(o.(providerID := Some(PROVIDER_ID_PREFIX + node.id),
                status := o.status.(provisioned := true, ready := ReadyTrue)),
             f, DONE, Rejoined(node.id, node.heartbeat.value))
      else
        match RebootVerdict(f, w, m, node)
        case Refused(message) =>
          var marks := m.(rebootAt := Absent, rebootCommand := "", retryAt := RetryWindow(w.later, RETRY_REBOOT));
          Pass(o.(marks := marks, status := NotReadyStatus(o.status, RebootFailed, message)),
               f, Outcome(RETRY_REBOOT, false), RebootRefused(m.nodeId, m.rebootCommand))
        case _ =>
          Pass(Unready(o, WaitingForNodeRejoin), f, Outcome(WAIT_FOR_REJOIN, false), Idle)
  }

  function Normal(o: Object, f: FleetState, w: World): Pass
    requires Valid(f)
  {
    if !w.bootstrapNamed then Pass(Unready(o, WaitingForBootstrapData), f, DONE, Idle) else
    match FleetClientFor(w.infra)
    case NotYet(requeueAfter, failed) =>
      Pass(Unready(o, WaitingForClusterInfrastructure), f, Outcome(requeueAfter, failed), Idle)
    case Ready =>
      if o.marks.nodeId == "" then ClaimStage(o, f, w)
      else if !o.marks.applied then ApplyStage(o, f, w)
      else if o.marks.rebootAt.Absent? then RebootStage(o, f, w)
      else RejoinStage(o, f, w)
  }

  /*** reconcileDelete ***/

  function Finished(o: Object): Object {
    o.(finalizer := false)
  }

  function Delete(o: Object, f: FleetState, w: World): Pass {
    var n := o.marks.nodeId;
    if n == "" then Pass(Finished(o), f, DONE, Idle) else
    match FleetClientForDelete(w.infra)
    case Unconnected(e) =>
      if IsPermanentlyUnresolvable(e) then Pass(Finished(o), f, DONE, Idle)
      else Pass(o, f, FAILED, Idle)
    case Connected =>
      if w.fault.RequestLost? then Pass(o, f, FAILED, Idle) else
      var key := ClaimKeyFor(o);
      var (f', sent) := Release(f, n, key);
      var deed := if sent.Ok? then Released(n, key, sent.value) else Idle;
      match Received(w.fault, sent)
      case Ok(_) => Pass(Finished(o), f', DONE, deed)
      case Err(e) =>
        if IsNotFound(e) || IsClaimMismatch(e) then Pass(Finished(o), f', DONE, deed)
        else Pass(o, f', FAILED, deed)
  }

  /*** Reconcile ***/

  /** The object in memory when the deferred patch runs, with the pass's other effects. */
  function Reconcile(o: Object, f: FleetState, w: World): Pass
    requires Valid(f)
  {
    match w.gate
    case OwnerUnreadable => Pass(o, f, FAILED, Idle)
    case OwnerMissing => Pass(o, f, DONE, Idle)
    case ClusterMissing => Pass(o, f, DONE, Idle)
    case OwnerReferenceRejected => Pass(o, f, FAILED, Idle)
    case Paused => Pass(o, f, DONE, Idle)
    case Open =>
      var o1 := o.(finalizer := true);
      if o.deleting then Delete(o1, f, w) else Normal(o1, f, w)
  }

  /** Whether the pass gets far enough to install the deferred patch. */
  predicate Patches(w: World) {
    w.gate != OwnerUnreadable && w.gate != OwnerMissing && w.gate != ClusterMissing
  }

  /** A failing patch surfaces as the pass's error when there is no other. */
  function Reported(out: Outcome, w: World): Outcome {
    if Patches(w) && !w.patchKept then out.(failed := true) else out
  }

  /** The API server removes a deleted object when its last finalizer goes. */
  predicate Gone(o: Object) {
    o.deleting && !o.finalizer
  }

  /** The stored objects after a pass left `o` in memory for `mid`. */
  function Written(store: map<nat, Object>, mid: nat, o: Object, kept: bool): map<nat, Object> {
    if !kept then store
    else if Gone(o) then store - {mid}
    else store[mid := o]
  }
}
