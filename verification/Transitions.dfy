/** What one pass can do, event by event. Every result about runs rests on this table alone. */
module Transitions {
  import opened Wrappers
  import opened Clock
  import opened Fleet
  import opened Connection
  import opened Machine

  /*** Effects on the fleet ***/

  /** No key but k gains or loses a node. */
  ghost predicate OtherClaimsKept(f: FleetState, f': FleetState, k: Key) {
    && (forall k' :: k' != k ==> HeldBy(f', k') == HeldBy(f, k'))
    && (forall n, k' :: k' != k && Holds(f, n, k') ==> Holds(f', n, k'))
  }

  ghost predicate ClaimEffect(f: FleetState, f': FleetState, n: NodeId, k: Key) {
    && SameReports(f, f') && OtherClaimsKept(f, f', k)
    && n != "" && Holds(f', n, k) && HeldBy(f', k) == Some(n)
    && (HeldBy(f, k).Some? ==> HeldBy(f, k) == Some(n) && f' == f)
    && (HeldBy(f, k) == None ==> n in FreeNodes(f))
  }

  ghost predicate QueueEffect(f: FleetState, f': FleetState, n: NodeId, c: Command) {
    && n in f.nodes
    && f' == f.(nodes := f.nodes[n := f.nodes[n].(commands := f.nodes[n].commands + [c])])
  }

  ghost predicate ReleaseEffect(f: FleetState, f': FleetState, n: NodeId, k: Key, cleared: bool) {
    && SameReports(f, f') && OtherClaimsKept(f, f', k)
    && (cleared <==> Holds(f, n, k))
    && (!cleared ==> f' == f)
    && !Holds(f', n, k)
    && (cleared ==> HeldBy(f', k) == None)
  }

  /*** Effects on the object ***/

  predicate StatusKeptOrUnready(s: Status, s': Status) {
    s' == s || (!s'.provisioned && s'.ready.ReadyFalse?)
  }

  predicate WasUnready(s: Status) {
    !s.provisioned && s.ready.ReadyFalse?
  }

  function ApplyCommandOf(w: World, data: string): Command {
    Command(w.newId, ApplyCloudConfig, data, CommandPending, "", w.createdAt)
  }

  function RebootCommandOf(w: World): Command {
    Command(w.newId, RebootNode, "", CommandPending, "", w.createdAt)
  }

  /** The node is a free one of the group that ref means, among those the pass is shown. */
  ghost predicate InOwnGroup(f: FleetState, w: World, ref: string, n: NodeId) {
    w.groups.Some? && n in f.nodes && f.nodes[n].claimKey == None && IsGroup(w.groups.value, ref, f.nodes[n].group)
  }

  /** The pass's change to the object and the fleet, given the event it reports. */
  ghost predicate DeedEffect(o: Object, f: FleetState, w: World, r: Pass) {
    var m, m' := o.marks, r.obj.marks;
    var s, s' := o.status, r.obj.status;
    match r.deed
    case Idle =>
      && r.fleet == f
      && (m' == m
          || (m' == m.(retryAt := Absent) && !o.deleting && m.rebootAt.Absent? && RetryWait(m.retryAt, w.now) == 0))
      && r.obj.providerID == o.providerID
      && StatusKeptOrUnready(s, s')
    case Claimed(n, k) =>
      && !o.deleting && m.nodeId == "" && k == ClaimKeyFor(o) && !w.fault.RequestLost?
      && ClaimEffect(f, r.fleet, n, k)
      && (HeldBy(f, k) == None ==> InOwnGroup(f, w, o.group, n))
      && r.obj.providerID == o.providerID
      && (w.fault.Clean? ==> m' == m.(nodeId := n, claimKey := k) && WasUnready(s'))
      && (w.fault.ReplyLost? ==> m' == m && s' == s)
    case ApplyQueued(n, data, id, at) =>
      && !o.deleting && m.nodeId == n != "" && !m.applied && !w.fault.RequestLost?
      && RetryWait(m.retryAt, w.now) == 0
      && w.bootstrap == Data(data) && id == w.newId && at == w.queuedAt
      && QueueEffect(f, r.fleet, n, ApplyCommandOf(w, data))
      && r.obj.providerID == o.providerID
      && (w.fault.Clean? ==>
            && m' == m.(retryAt := Absent, applied := true, applyCommand := if id != "" then id else m.applyCommand)
            && WasUnready(s'))
      && (w.fault.ReplyLost? ==> m' == m.(retryAt := Absent) && s' == s)
    case ApplyRefused(n, id) =>
      && !o.deleting && m.nodeId == n != "" && m.applied && m.rebootAt.Absent? && id == m.applyCommand
      && r.fleet == f
      && CommandVerdict(f, w, n, id, ApplyCloudConfig).Refused?
      && r.obj.providerID == o.providerID
      && m' == m.(applied := false, applyCommand := "", retryAt := RetryWindow(w.later, RETRY_CLOUD_CONFIG))
      && WasUnready(s') && s'.failure == None
    case RebootQueued(n, seen, id, at) =>
      && !o.deleting && m.nodeId == n != "" && m.applied && m.rebootAt.Absent? && !w.fault.RequestLost?
      && RetryWait(m.retryAt, w.now) == 0
      && seen == m.applyCommand && id == w.newId && at == w.queuedAt
      && CommandVerdict(f, w, n, seen, ApplyCloudConfig).Succeeded?
      && QueueEffect(f, r.fleet, n, RebootCommandOf(w))
      && r.obj.providerID == o.providerID
      && (w.fault.Clean? ==>
            && m' == m.(retryAt := Absent, rebootAt := Format(w.later),
                        rebootCommand := if id != "" then id else m.rebootCommand)
            && WasUnready(s'))
      && (w.fault.ReplyLost? ==> m' == m.(retryAt := Absent) && s' == s)
    case RebootRefused(n, id) =>
      && !o.deleting && m.nodeId == n != "" && m.applied && !m.rebootAt.Absent? && id == m.rebootCommand
      && r.fleet == f
      && n in f.nodes && f.nodes[n].phase == Online && !RejoinedAfterReboot(m.rebootAt, f.nodes[n])
      && CommandVerdict(f, w, n, id, RebootNode).Refused?
      && r.obj.providerID == o.providerID
      && m' == m.(rebootAt := Absent, rebootCommand := "", retryAt := RetryWindow(w.later, RETRY_REBOOT))
      && WasUnready(s') && s'.failure == s.failure
    case Rejoined(n, heartbeat) =>
      && !o.deleting && m.nodeId == n != "" && m.applied && !m.rebootAt.Absent?
      && r.fleet == f
      && n in f.nodes && RejoinedAfterReboot(m.rebootAt, f.nodes[n]) && f.nodes[n].heartbeat == Some(heartbeat)
      && m' == m
      && r.obj.providerID == Some(PROVIDER_ID_PREFIX + n)
      && s' == s.(provisioned := true, ready := ReadyTrue)
    case Released(n, k, cleared) =>
      && o.deleting && m.nodeId == n != "" && n in f.nodes && k == ClaimKeyFor(o) && !w.fault.RequestLost?
      && FleetClientForDelete(w.infra).Connected?
      && ReleaseEffect(f, r.fleet, n, k, cleared)
      && m' == m && s' == s && r.obj.providerID == o.providerID
      && (w.fault.Clean? <==> !r.obj.finalizer)
  }

  /** The circumstances in which a delete pass drops the finalizer: nothing was claimed, or the
      connection is gone for good, or the release gets an answer. */
  predicate FinishesDelete(o: Object, w: World) {
    w.gate.Open? &&
    (o.marks.nodeId == "" ||
      match FleetClientForDelete(w.infra)
      case Connected => w.fault.Clean?
      case Unconnected(e) => IsPermanentlyUnresolvable(e))
  }

  /** A deletion finishes with a recorded node only when nothing is left to release under the
      machine's key, or when there is no way left to reach the fleet. */
  ghost predicate GivesUpProperly(o: Object, w: World, r: Pass) {
    match FleetClientForDelete(w.infra)
    case Connected => !Holds(r.fleet, o.marks.nodeId, ClaimKeyFor(o))
    case Unconnected(e) => IsPermanentlyUnresolvable(e)
  }

  /** What holds of every pass. */
  ghost predicate Shape(o: Object, f: FleetState, w: World, r: Pass) {
    && Valid(r.fleet)
    && r.obj.uid == o.uid && r.obj.group == o.group && r.obj.deleting == o.deleting
    && (!o.deleting ==> (o.finalizer || !r.deed.Idle? ==> r.obj.finalizer))
    && (o.status.failure.Some? && !r.deed.ApplyRefused? ==> r.obj.status.failure.Some?)
    && OtherClaimsKept(f, r.fleet, ClaimKeyFor(o))
    && DeedEffect(o, f, w, r)
    && (o.deleting && !Gone(o) ==> (Gone(r.obj) <==> FinishesDelete(o, w)))
    && (Gone(r.obj) && !Gone(o) && o.marks.nodeId != "" ==> GivesUpProperly(o, w, r))
  }

  lemma QueueKeepsClaims(f: FleetState, n: NodeId, c: Command, k: Key)
    requires Valid(f)
    ensures var (f', reply) := CreateCommand(f, n, c);
      && Valid(f') && OtherClaimsKept(f, f', k)
      && (reply.Ok? ==> QueueEffect(f, f', n, c))
      && (reply.Err? ==> f' == f)
  {
    CreateCommandSound(f, n, c);
  }

  /** The claim request gets out to group g. */
  lemma ClaimSentShape(o: Object, f: FleetState, w: World, g: GroupId)
    requires Valid(f) && !o.deleting && o.finalizer && o.marks.nodeId == "" && !w.fault.RequestLost?
    requires w.groups.Some? && IsGroup(w.groups.value, o.group, g)
    ensures var (f', sent) := Claim(f, g, ClaimKeyFor(o));
      Shape(o, f, w, ClaimAnswered(o, w, f', sent))
  {
    ClaimSound(f, g, ClaimKeyFor(o));
    assert FreeIn(f, g) <= FreeNodes(f);
  }

  lemma ClaimShape(o: Object, f: FleetState, w: World)
    requires Valid(f) && !o.deleting && o.finalizer && o.marks.nodeId == ""
    ensures Shape(o, f, w, ClaimStage(o, f, w))
  {
    if w.groups.Some? && ResolveGroup(w.groups.value, o.group).Ok? && !w.fault.RequestLost? {
      GroupIsResolved(w.groups.value, o.group);
      ClaimSentShape(o, f, w, ResolveGroup(w.groups.value, o.group).value);
    }
  }

  lemma ApplyShape(o: Object, f: FleetState, w: World)
    requires Valid(f) && !o.deleting && o.finalizer
    requires o.marks.nodeId != "" && !o.marks.applied && o.marks.rebootAt.Absent?
    ensures Shape(o, f, w, ApplyStage(o, f, w))
  {
    if w.bootstrap.Data? {
      QueueKeepsClaims(f, o.marks.nodeId, ApplyCommandOf(w, w.bootstrap.data), ClaimKeyFor(o));
    }
  }

  /** The reboot is sent: the apply succeeded, no window is open, the request gets out. */
  lemma RebootSentShape(o: Object, f: FleetState, w: World)
    requires Valid(f) && !o.deleting && o.finalizer
    requires o.marks.nodeId != "" && o.marks.applied && o.marks.rebootAt.Absent?
    requires CommandVerdict(f, w, o.marks.nodeId, o.marks.applyCommand, ApplyCloudConfig).Succeeded?
    requires RetryWait(o.marks.retryAt, w.now) == 0 && !w.fault.RequestLost?
    ensures Shape(o, f, w, RebootStage(o, f, w))
  {
    QueueKeepsClaims(f, o.marks.nodeId, RebootCommandOf(w), ClaimKeyFor(o));
  }

  lemma RebootShape(o: Object, f: FleetState, w: World)
    requires Valid(f) && !o.deleting && o.finalizer
    requires o.marks.nodeId != "" && o.marks.applied && o.marks.rebootAt.Absent?
    ensures Shape(o, f, w, RebootStage(o, f, w))
  {
    var verdict := CommandVerdict(f, w, o.marks.nodeId, o.marks.applyCommand, ApplyCloudConfig);
    if verdict.Succeeded? && RetryWait(o.marks.retryAt, w.now) == 0 && !w.fault.RequestLost? {
      RebootSentShape(o, f, w);
    }
  }

  lemma RejoinedShape(o: Object, f: FleetState, w: World)
    requires Valid(f) && !o.deleting && o.finalizer
    requires o.marks.nodeId != "" && o.marks.applied && !o.marks.rebootAt.Absent?
    requires o.marks.nodeId in f.nodes && RejoinedAfterReboot(o.marks.rebootAt, f.nodes[o.marks.nodeId])
    ensures Shape(o, f, w, RejoinStage(o, f, w))
  {
  }

  lemma RejoinShape(o: Object, f: FleetState, w: World)
    requires Valid(f) && !o.deleting && o.finalizer
    requires o.marks.nodeId != "" && o.marks.applied && !o.marks.rebootAt.Absent?
    ensures Shape(o, f, w, RejoinStage(o, f, w))
  {
    if o.marks.nodeId in f.nodes && RejoinedAfterReboot(o.marks.rebootAt, f.nodes[o.marks.nodeId]) {
      RejoinedShape(o, f, w);
    }
  }

  /** The release reaches the fleet and is not refused. */
  lemma ReleasedShape(o: Object, f: FleetState, w: World)
    requires Valid(f) && o.deleting && o.finalizer && w.gate.Open? && o.marks.nodeId != ""
    requires FleetClientForDelete(w.infra).Connected? && !w.fault.RequestLost?
    requires Release(f, o.marks.nodeId, ClaimKeyFor(o)).1.Ok?
    ensures Shape(o, f, w, Delete(o, f, w))
  {
    ReleaseSound(f, o.marks.nodeId, ClaimKeyFor(o));
  }

  lemma DeleteShape(o: Object, f: FleetState, w: World)
    requires Valid(f) && o.deleting && o.finalizer && w.gate.Open?
    ensures Shape(o, f, w, Delete(o, f, w))
  {
    var n, k := o.marks.nodeId, ClaimKeyFor(o);
    ReleaseSound(f, n, k);
    if n != "" && FleetClientForDelete(w.infra).Connected? && !w.fault.RequestLost? && Release(f, n, k).1.Ok? {
      ReleasedShape(o, f, w);
    }
  }

  /** A pass over the object with the finalizer added is a pass over the object. */
  lemma ShapeAfterFinalizer(o: Object, f: FleetState, w: World, r: Pass)
    requires Shape(o.(finalizer := true), f, w, r)
    ensures Shape(o, f, w, r)
  {
    var o1 := o.(finalizer := true);
    assert ClaimKeyFor(o1) == ClaimKeyFor(o);
    assert DeedEffect(o1, f, w, r);
    assert DeedEffect(o, f, w, r);
  }

  lemma WaitingShape(o: Object, f: FleetState, w: World, reason: Reason, out: Outcome)
    requires Valid(f) && (o.deleting ==> !w.gate.Open?)
    ensures Shape(o, f, w, Pass(o, f, out, Idle))
    ensures !o.deleting ==> Shape(o, f, w, Pass(Unready(o, reason), f, out, Idle))
  {
  }

  lemma NormalShape(o: Object, f: FleetState, w: World)
    requires Valid(f) && !o.deleting && o.finalizer && (!o.marks.applied ==> o.marks.rebootAt.Absent?)
    ensures Shape(o, f, w, Normal(o, f, w))
  {
    if !w.bootstrapNamed {
      WaitingShape(o, f, w, WaitingForBootstrapData, DONE);
    } else if FleetClientFor(w.infra).NotYet? {
      WaitingShape(o, f, w, WaitingForClusterInfrastructure, Normal(o, f, w).out);
    } else if o.marks.nodeId == "" {
      ClaimShape(o, f, w);
    } else if !o.marks.applied {
      ApplyShape(o, f, w);
    } else if o.marks.rebootAt.Absent? {
      RebootShape(o, f, w);
    } else {
      RejoinShape(o, f, w);
    }
  }

  lemma ClosedGateShape(o: Object, f: FleetState, w: World)
    requires Valid(f) && !w.gate.Open?
    ensures Shape(o, f, w, Reconcile(o, f, w))
  {
    var out := if w.gate.OwnerUnreadable? || w.gate.OwnerReferenceRejected? then FAILED else DONE;
    WaitingShape(o, f, w, WaitingForBootstrapData, out);
  }

  lemma OpenGate(o: Object, f: FleetState, w: World)
    requires Valid(f) && w.gate.Open?
    ensures Reconcile(o, f, w) ==
      if o.deleting then Delete(o.(finalizer := true), f, w) else Normal(o.(finalizer := true), f, w)
  {
  }

  lemma OpenGateShape(o: Object, f: FleetState, w: World, r: Pass)
    requires Valid(f) && w.gate.Open? && (!o.marks.applied ==> o.marks.rebootAt.Absent?)
    requires r == if o.deleting then Delete(o.(finalizer := true), f, w) else Normal(o.(finalizer := true), f, w)
    ensures Shape(o, f, w, r)
  {
    if o.deleting {
      DeleteShape(o.(finalizer := true), f, w);
    } else {
      NormalShape(o.(finalizer := true), f, w);
    }
    ShapeAfterFinalizer(o, f, w, r);
  }

  /** Every pass over an object whose markers are in order is one of the table's. */
  lemma ReconcileShape(o: Object, f: FleetState, w: World)
    requires Valid(f) && (!o.marks.applied ==> o.marks.rebootAt.Absent?)
    ensures Shape(o, f, w, Reconcile(o, f, w))
  {
    if w.gate.Open? {
      OpenGate(o, f, w);
      OpenGateShape(o, f, w, Reconcile(o, f, w));
    } else {
      ClosedGateShape(o, f, w);
    }
  }

  /** No pass prunes or rewrites a node's commands. */
  lemma CommandsGrow(o: Object, f: FleetState, w: World, r: Pass, n: NodeId)
    requires DeedEffect(o, f, w, r) && n in f.nodes
    ensures n in r.fleet.nodes && f.nodes[n].commands <= r.fleet.nodes[n].commands
  {
    match r.deed {
      case Claimed(_, _) => assert SameReports(f, r.fleet);
      case Released(_, _, _) => assert SameReports(f, r.fleet);
      case ApplyQueued(m, data, _, _) => assert QueueEffect(f, r.fleet, m, ApplyCommandOf(w, data));
      case RebootQueued(m, _, _, _) => assert QueueEffect(f, r.fleet, m, RebootCommandOf(w));
      case _ =>
    }
  }

  /** No pass changes what a node reports of itself. */
  lemma ReportsKept(o: Object, f: FleetState, w: World, r: Pass, n: NodeId)
    requires DeedEffect(o, f, w, r) && n in f.nodes
    ensures n in r.fleet.nodes
    ensures r.fleet.nodes[n].heartbeat == f.nodes[n].heartbeat && r.fleet.nodes[n].phase == f.nodes[n].phase
  {
    match r.deed {
      case Claimed(_, _) => assert SameReports(f, r.fleet);
      case Released(_, _, _) => assert SameReports(f, r.fleet);
      case ApplyQueued(m, data, _, _) => assert QueueEffect(f, r.fleet, m, ApplyCommandOf(w, data));
      case RebootQueued(m, _, _, _) => assert QueueEffect(f, r.fleet, m, RebootCommandOf(w));
      case _ =>
    }
  }

  /** What a pass does to its own key: only a claim or a release changes what is held under it. */
  lemma OwnKeyEffect(o: Object, f: FleetState, w: World, r: Pass)
    requires DeedEffect(o, f, w, r) && Valid(f)
    ensures var k := ClaimKeyFor(o);
      HeldBy(r.fleet, k) != HeldBy(f, k) ==>
        || (r.deed.Claimed? && r.deed.key == k && HeldBy(f, k) == None && HeldBy(r.fleet, k) == Some(r.deed.node))
        || (r.deed.Released? && r.deed.key == k && HeldBy(r.fleet, k) == None)
  {
    var k := ClaimKeyFor(o);
    match r.deed {
      case ApplyQueued(n, data, _, _) => assert QueueEffect(f, r.fleet, n, ApplyCommandOf(w, data));
      case RebootQueued(n, _, _, _) => assert QueueEffect(f, r.fleet, n, RebootCommandOf(w));
      case Claimed(n, _) => assert ClaimEffect(f, r.fleet, n, k);
      case Released(n, _, cleared) => assert ReleaseEffect(f, r.fleet, n, k, cleared);
      case _ =>
    }
  }

  /** A pass whose command's reply is lost leaves the object in memory as it was, but for the
      retry stamp. */
  lemma LostReplyLeavesMarks(o: Object, f: FleetState, w: World, r: Pass)
    requires Shape(o, f, w, r) && w.fault.ReplyLost? && (r.deed.ApplyQueued? || r.deed.RebootQueued?)
    ensures r.obj.marks == o.marks.(retryAt := r.obj.marks.retryAt) && r.obj.status == o.status
  {
  }
}
