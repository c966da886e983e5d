/** What every pass reports and leaves, told from what it meets: the Ready condition, the markers, the
    fleet, the requeue delay and the error, case by case. The cases are told by the object, the fleet's
    nodes and commands and the reads, not by the functions the passes are computed with. */
module Reports {
  import opened Wrappers
  import opened Clock
  import opened Fleet
  import opened Connection
  import opened Machine
  import opened Transitions
  import opened Stages
  import opened System
  import Commands

  /*** Kinds of report ***/

  /** Nothing happens, and the machine waits so many seconds for what the reason says. */
  predicate Waits(o: Object, f: FleetState, r: Pass, reason: Reason, seconds: int) {
    && r.obj == o.(finalizer := true, status := Status(false, ReadyFalse(reason, ""), o.status.failure))
    && r.fleet == f && r.deed.Idle?
    && r.out == Outcome(seconds * SECOND, false)
  }

  /** The pass ends in an error, with these markers and the status as before. */
  predicate Fails(o: Object, m: Marks, r: Pass) {
    && r.obj == o.(finalizer := true, marks := m)
    && r.out == Outcome(0, true)
  }

  /** The pass moves on to these markers, for the reason given. */
  predicate MovesOn(o: Object, m: Marks, r: Pass, reason: Reason, seconds: int) {
    && r.obj == o.(finalizer := true, marks := m, status := Status(false, ReadyFalse(reason, ""), o.status.failure))
    && r.out == Outcome(seconds * SECOND, false)
  }

  /** The pass falls back to these markers on a refusal, whose message the condition quotes. */
  predicate FallsBack(o: Object, m: Marks, r: Pass, reason: Reason, message: string, failure: Option<Reason>) {
    && r.obj == o.(finalizer := true, marks := m, status := Status(false, ReadyFalse(reason, message), failure))
    && r.out == Outcome(60 * SECOND, false)
  }

  /** The pass sits out the retry window it is in. */
  predicate SitsOut(o: Object, f: FleetState, w: World, r: Pass) {
    && r.obj == o.(finalizer := true) && r.fleet == f && r.deed.Idle?
    && o.marks.retryAt.Sec? && r.out == Outcome(o.marks.retryAt.s * SECOND - w.now, false)
  }

  /*** What a pass meets ***/

  /** A pass over a live machine that gets as far as the stages. */
  predicate Proceeds(o: Object, w: World) {
    w.gate.Open? && !o.deleting && w.bootstrapNamed && Connects(w.infra)
  }

  /** A retry window is open: the stamp parses, and its second has not been reached. */
  predicate HeldBack(o: Object, w: World) {
    o.marks.retryAt.Sec? && o.marks.retryAt.s * SECOND > w.now
  }

  function Unstamped(m: Marks): Marks {
    m.(retryAt := Absent)
  }

  /** The pass can read the node's commands, and c is the one that counts. */
  ghost predicate Sees(f: FleetState, w: World, n: NodeId, id: string, kind: CommandKind, c: Command) {
    !w.commandsReadFails && n in f.nodes && Commands.Selected(f.nodes[n].commands, id, kind, c)
  }

  predicate IsRefused(c: Command) {
    c.phase == Failed || c.phase == Expired
  }

  /** The node is Online and has sent a heartbeat later than the recorded second. */
  predicate IsBack(node: Node, rebootAt: Stamp) {
    node.phase == Online && node.heartbeat.Some? && rebootAt.Sec? && node.heartbeat.value > rebootAt.s * SECOND
  }

  /** What reading the command that counts gives, or does not. */
  lemma SeenVerdict(f: FleetState, w: World, n: NodeId, id: string, kind: CommandKind)
    ensures var v := CommandVerdict(f, w, n, id, kind);
      && (forall c :: Sees(f, w, n, id, kind, c) ==> Commands.Reads(v, c))
      && ((forall c :: !Sees(f, w, n, id, kind, c)) ==> v == Commands.Undecided)
  {
    if n in f.nodes && !w.commandsReadFails {
      Commands.VerdictReads(f.nodes[n].commands, id, kind);
      if !CommandVerdict(f, w, n, id, kind).Undecided? {
        var c :| Commands.Selected(f.nodes[n].commands, id, kind, c);
        assert Sees(f, w, n, id, kind, c);
      }
    }
  }

  /*** Before the stages ***/

  /** Only an unreadable owner and a rejected owner reference are errors; none of these passes touches
      the object or the fleet. */
  lemma ClosedGateReports(o: Object, f: FleetState, w: World)
    requires Valid(f) && !w.gate.Open?
    ensures Reconcile(o, f, w)
         == Pass(o, f, Outcome(0, w.gate.OwnerUnreadable? || w.gate.OwnerReferenceRejected?), Idle)
  {
  }

  /** Without a bootstrap secret's name the machine waits for its owner's watch; without a connection
      it waits 15 s for the cluster object to appear, or 30 s for a usable connection, and a cluster
      object that cannot be read is an error. */
  lemma WaitingReports(o: Object, f: FleetState, w: World)
    requires Valid(f) && w.gate.Open? && !o.deleting && !(w.bootstrapNamed && Connects(w.infra))
    ensures var r := Reconcile(o, f, w);
      if !w.bootstrapNamed then
        Waits(o, f, r, WaitingForBootstrapData, 0)
      else if w.infra.Unreadable? then
        && Waits(o, f, r.(out := Outcome(15 * SECOND, false)), WaitingForClusterInfrastructure, 15)
        && r.out.failed
      else
        Waits(o, f, r, WaitingForClusterInfrastructure, if w.infra.Missing? then 15 else 30)
  {
    OpenGate(o, f, w);
  }

  lemma StagesReached(o: Object, f: FleetState, w: World)
    requires Valid(f) && Proceeds(o, w)
    ensures var o1 := o.(finalizer := true);
      Reconcile(o, f, w) ==
        if o.marks.nodeId == "" then ClaimStage(o1, f, w)
        else if !o.marks.applied then ApplyStage(o1, f, w)
        else if o.marks.rebootAt.Absent? then RebootStage(o1, f, w)
        else RejoinStage(o1, f, w)
  {
    OpenGate(o, f, w);
  }

  /*** Claiming ***/

  /** Groups that cannot be listed are an error; a group that is not listed, by ID or by name, is
      waited for, for 30 s. */
  lemma GroupReports(o: Object, f: FleetState, w: World)
    requires Valid(f) && Proceeds(o, w) && o.marks.nodeId == ""
    ensures w.groups == None ==> Reconcile(o, f, w) == Pass(o.(finalizer := true), f, Outcome(0, true), Idle)
    ensures w.groups.Some? && !Listed(w.groups.value, o.group) && !Named(w.groups.value, o.group) ==>
              Waits(o, f, Reconcile(o, f, w), GroupNotFound, 30)
  {
    StagesReached(o, f, w);
    if w.groups.Some? {
      GroupIsResolved(w.groups.value, o.group);
    }
  }

  /** The key has a node already, or the machine's group has a free one. */
  predicate CanClaim(o: Object, f: FleetState, g: GroupId) {
    HeldBy(f, ClaimKeyFor(o)).Some? || FreeIn(f, g) != {}
  }

  /** A machine whose own group has no free node claims none: it waits 30 s for capacity. Otherwise it
      records the node its key holds, or else the group's first free one, and returns at once. A lost
      request or reply is an error and records nothing. */
  lemma ClaimReports(o: Object, f: FleetState, w: World, g: GroupId)
    requires Valid(f) && Proceeds(o, w) && o.marks.nodeId == ""
    requires w.groups.Some? && IsGroup(w.groups.value, o.group, g)
    ensures var r, k := Reconcile(o, f, w), ClaimKeyFor(o);
      && (w.fault.RequestLost? ==> Fails(o, o.marks, r) && r.fleet == f && r.deed.Idle?)
      && (w.fault.ReplyLost? ==> Fails(o, o.marks, r))
      && (!CanClaim(o, f, g) && !w.fault.RequestLost? ==> r.fleet == f && r.deed.Idle?)
      && (!CanClaim(o, f, g) && w.fault.Clean? ==> Waits(o, f, r, WaitingForCapacity, 30))
      && (CanClaim(o, f, g) && !w.fault.RequestLost? ==>
            && HeldBy(r.fleet, k).Some?
            && var n := HeldBy(r.fleet, k).value;
               && r.deed == Claimed(n, k)
               && (HeldBy(f, k).Some? ==> r.fleet == f)
               && (HeldBy(f, k) == None ==> n in FreeIn(f, g) && n == PoolOf(f, g)[0])
               && (w.fault.Clean? ==> MovesOn(o, o.marks.(nodeId := n, claimKey := k), r, NodeClaimed, 0)))
  {
    StagesReached(o, f, w);
    GroupIsResolved(w.groups.value, o.group);
    if !w.fault.RequestLost? {
      AnsweredReports(o.(finalizer := true), f, w, g);
    }
  }

  lemma AnsweredReports(o: Object, f: FleetState, w: World, g: GroupId)
    requires Valid(f) && o.finalizer && !w.fault.RequestLost?
    ensures var (f', sent) := Claim(f, g, ClaimKeyFor(o));
      var r, k := ClaimAnswered(o, w, f', sent), ClaimKeyFor(o);
      && (w.fault.ReplyLost? ==> Fails(o, o.marks, r))
      && (!CanClaim(o, f, g) ==> r.fleet == f && r.deed.Idle?)
      && (!CanClaim(o, f, g) && w.fault.Clean? ==> Waits(o, f, r, WaitingForCapacity, 30))
      && (CanClaim(o, f, g) ==>
            && HeldBy(r.fleet, k).Some?
            && var n := HeldBy(r.fleet, k).value;
               && r.deed == Claimed(n, k)
               && (HeldBy(f, k).Some? ==> r.fleet == f)
               && (HeldBy(f, k) == None ==> n in FreeIn(f, g) && n == PoolOf(f, g)[0])
               && (w.fault.Clean? ==> MovesOn(o, o.marks.(nodeId := n, claimKey := k), r, NodeClaimed, 0)))
  {
    ClaimSound(f, g, ClaimKeyFor(o));
  }

  /*** Applying ***/

  /** Inside a retry window nothing is sent. Outside one the stamp goes, even if the stamp was garbled
      and even if the pass then fails: for want of the Secret or its data, a lost request, a missing
      node or a lost reply. Otherwise the Secret's data is queued, and looked at again after 15 s. */
  lemma ApplyReports(o: Object, f: FleetState, w: World)
    requires Valid(f) && Proceeds(o, w) && o.marks.nodeId != "" && !o.marks.applied
    ensures var r, m, n := Reconcile(o, f, w), Unstamped(o.marks), o.marks.nodeId;
      if HeldBack(o, w) then
        SitsOut(o, f, w, r)
      else if !w.bootstrap.Data? || w.fault.RequestLost? || n !in f.nodes then
        Fails(o, m, r) && r.fleet == f && r.deed.Idle?
      else
        && QueueEffect(f, r.fleet, n,
                       Command(w.newId, ApplyCloudConfig, w.bootstrap.data, CommandPending, "", w.createdAt))
        && r.deed == ApplyQueued(n, w.bootstrap.data, w.newId, w.queuedAt)
        && (w.fault.ReplyLost? ==> Fails(o, m, r))
        && (w.fault.Clean? && w.newId != "" ==>
              MovesOn(o, m.(applied := true, applyCommand := w.newId), r, ApplyingCloudConfig, 15))
  {
    StagesReached(o, f, w);
  }

  /*** Rebooting ***/

  /** An apply seen Failed or Expired is given up: its markers go, a retry window opens for 60 s, the
      condition quotes its result, and a recorded failure is cleared. */
  lemma RefusedApplyReports(o: Object, f: FleetState, w: World, c: Command)
    requires Valid(f) && Proceeds(o, w) && o.marks.nodeId != "" && o.marks.applied && o.marks.rebootAt.Absent?
    requires Sees(f, w, o.marks.nodeId, o.marks.applyCommand, ApplyCloudConfig, c) && IsRefused(c)
    ensures var r := Reconcile(o, f, w);
      && FallsBack(o, o.marks.(applied := false, applyCommand := "", retryAt := Format(w.later + 60 * SECOND)),
                   r, CloudConfigFailed, c.result, None)
      && r.fleet == f && r.deed == ApplyRefused(o.marks.nodeId, o.marks.applyCommand)
  {
    StagesReached(o, f, w);
    SeenVerdict(f, w, o.marks.nodeId, o.marks.applyCommand, ApplyCloudConfig);
  }

  /** An apply that cannot be read, or is in no final phase, is waited for, for 15 s. */
  lemma PendingApplyReports(o: Object, f: FleetState, w: World)
    requires Valid(f) && Proceeds(o, w) && o.marks.nodeId != "" && o.marks.applied && o.marks.rebootAt.Absent?
    requires forall c :: Sees(f, w, o.marks.nodeId, o.marks.applyCommand, ApplyCloudConfig, c) ==>
               c.phase != Completed && !IsRefused(c)
    ensures Waits(o, f, Reconcile(o, f, w), ApplyingCloudConfig, 15)
  {
    StagesReached(o, f, w);
    SeenVerdict(f, w, o.marks.nodeId, o.marks.applyCommand, ApplyCloudConfig);
    var v := CommandVerdict(f, w, o.marks.nodeId, o.marks.applyCommand, ApplyCloudConfig);
    if c :| Sees(f, w, o.marks.nodeId, o.marks.applyCommand, ApplyCloudConfig, c) {
      assert Commands.Reads(v, c);
    }
  }

  /** After a Completed apply the reboot is queued, by the rules the apply was queued by. */
  lemma RebootReports(o: Object, f: FleetState, w: World, c: Command)
    requires Valid(f) && Proceeds(o, w) && o.marks.nodeId != "" && o.marks.applied && o.marks.rebootAt.Absent?
    requires Sees(f, w, o.marks.nodeId, o.marks.applyCommand, ApplyCloudConfig, c) && c.phase == Completed
    ensures var r, m, n := Reconcile(o, f, w), Unstamped(o.marks), o.marks.nodeId;
      if HeldBack(o, w) then
        SitsOut(o, f, w, r)
      else if w.fault.RequestLost? then
        Fails(o, m, r) && r.fleet == f && r.deed.Idle?
      else
        && QueueEffect(f, r.fleet, n, Command(w.newId, RebootNode, "", CommandPending, "", w.createdAt))
        && r.deed == RebootQueued(n, o.marks.applyCommand, w.newId, w.queuedAt)
        && (w.fault.ReplyLost? ==> Fails(o, m, r))
        && (w.fault.Clean? && w.newId != "" ==>
              MovesOn(o, m.(rebootAt := Format(w.later), rebootCommand := w.newId), r, Rebooting, 15))
  {
    StagesReached(o, f, w);
    SeenVerdict(f, w, o.marks.nodeId, o.marks.applyCommand, ApplyCloudConfig);
    var v := CommandVerdict(f, w, o.marks.nodeId, o.marks.applyCommand, ApplyCloudConfig);
    assert Commands.Reads(v, c);
  }

  /*** Rejoining ***/

  predicate AwaitsRejoin(o: Object, w: World) {
    Proceeds(o, w) && o.marks.nodeId != "" && o.marks.applied && !o.marks.rebootAt.Absent?
  }

  /** A node that cannot be read is an error and leaves the object alone. One that is not found fails
      the machine, with no error and no requeue. One that is back makes it Ready. */
  lemma RejoinReports(o: Object, f: FleetState, w: World)
    requires Valid(f) && AwaitsRejoin(o, w)
    ensures var r, n := Reconcile(o, f, w), o.marks.nodeId;
      && r.fleet == f
      && (w.nodeRead.NodeUnread? ==> Fails(o, o.marks, r) && r.deed.Idle?)
      && (w.nodeRead.AnsweredMissing? || (w.nodeRead.Answered? && n !in f.nodes) ==>
            && r.obj == o.(finalizer := true, status := Status(false, ReadyFalse(NodeMissing, ""), Some(NodeMissing)))
            && r.out == Outcome(0, false) && r.deed.Idle?)
      && (w.nodeRead.Answered? && n in f.nodes && f.nodes[n].id == n && IsBack(f.nodes[n], o.marks.rebootAt) ==>
            && r.obj == o.(finalizer := true, providerID := Some("kairos-fleet://" + n),
                           status := Status(true, ReadyTrue, o.status.failure))
            && r.out == Outcome(0, false) && r.deed == Rejoined(n, f.nodes[n].heartbeat.value))
  {
    StagesReached(o, f, w);
  }

  /** A node that is not back shows its reboot refused only while it is Online. Then the reboot is given
      up: its markers go, a retry window opens for 60 s and the condition quotes the result. */
  lemma RefusedRebootReports(o: Object, f: FleetState, w: World, c: Command)
    requires Valid(f) && AwaitsRejoin(o, w) && w.nodeRead.Answered? && o.marks.nodeId in f.nodes
    requires f.nodes[o.marks.nodeId].phase == Online && !IsBack(f.nodes[o.marks.nodeId], o.marks.rebootAt)
    requires Sees(f, w, o.marks.nodeId, o.marks.rebootCommand, RebootNode, c) && IsRefused(c)
    ensures var r := Reconcile(o, f, w);
      && FallsBack(o, o.marks.(rebootAt := Absent, rebootCommand := "", retryAt := Format(w.later + 60 * SECOND)),
                   r, Reason.RebootFailed, c.result, o.status.failure)
      && r.fleet == f && r.deed == RebootRefused(o.marks.nodeId, o.marks.rebootCommand)
  {
    StagesReached(o, f, w);
    SeenVerdict(f, w, o.marks.nodeId, o.marks.rebootCommand, RebootNode);
  }

  /** In every other case a node that is not back is waited for, for 15 s: it is away, or its reboot
      cannot be read, or has not been refused, be it Completed or not. */
  lemma PendingRebootReports(o: Object, f: FleetState, w: World)
    requires Valid(f) && AwaitsRejoin(o, w) && w.nodeRead.Answered? && o.marks.nodeId in f.nodes
    requires !IsBack(f.nodes[o.marks.nodeId], o.marks.rebootAt)
    requires f.nodes[o.marks.nodeId].phase == Online ==>
      forall c :: Sees(f, w, o.marks.nodeId, o.marks.rebootCommand, RebootNode, c) ==> !IsRefused(c)
    ensures Waits(o, f, Reconcile(o, f, w), WaitingForNodeRejoin, 15)
  {
    StagesReached(o, f, w);
    SeenVerdict(f, w, o.marks.nodeId, o.marks.rebootCommand, RebootNode);
    var v := CommandVerdict(f, w, o.marks.nodeId, o.marks.rebootCommand, RebootNode);
    if c :| Sees(f, w, o.marks.nodeId, o.marks.rebootCommand, RebootNode, c) {
      assert Commands.Reads(v, c);
    }
  }

  /*** In every run ***/

  /** A claim under a key that held nothing takes a free node of the group the machine names: the
      listed group with that ID, or else the first of that name. No other group's node is taken. */
  lemma ClaimsStayInGroup(ss: seq<System>, acts: seq<Action>, mid: Mid, w: World)
    requires IsRun(ss, acts) && acts != [] && acts[|acts| - 1] == PassOver(mid, w)
    requires LastDeed(ss[|acts|]).Claimed?
    requires HeldBy(ss[|acts| - 1].fleet, LastDeed(ss[|acts|]).key) == None
    ensures mid in ss[|acts| - 1].objs
    ensures InOwnGroup(ss[|acts| - 1].fleet, w, ss[|acts| - 1].objs[mid].group, LastDeed(ss[|acts|]).node)
  {
    var rs := RunIsBehaviour(ss, acts);
    assert Step(ss[|acts| - 1], acts[|acts| - 1], rs[|acts| - 1], ss[|acts|]);
  }

  /** The stored pass of a run, over a live machine, that reads its node's commands. */
  ghost predicate ReadsCommands(ss: seq<System>, acts: seq<Action>, mid: Mid, w: World)
    requires |ss| == |acts| + 1 && acts != []
  {
    var s := ss[|acts| - 1];
    && acts[|acts| - 1] == PassOver(mid, w) && w.patchKept && !w.commandsReadFails
    && mid in s.objs && Proceeds(s.objs[mid], w) && s.objs[mid].marks.nodeId in s.fleet.nodes
  }

  /** The machine's own apply, once Failed or Expired, is always given up: the converse of reading
      outcomes only from the machine's own commands. */
  lemma RefusedApplyIsRetried(ss: seq<System>, acts: seq<Action>, mid: Mid, w: World, c: Command)
    requires IsRun(ss, acts) && acts != [] && ReadsCommands(ss, acts, mid, w)
    requires var s := ss[|acts| - 1];
      var m := s.objs[mid].marks;
      && m.applied && m.rebootAt.Absent?
      && c in s.fleet.nodes[m.nodeId].commands && c.id == m.applyCommand && IsRefused(c)
    ensures mid in ss[|acts|].objs
    ensures var o' := ss[|acts|].objs[mid];
      && !o'.marks.applied && o'.marks.applyCommand == ""
      && o'.marks.retryAt == Format(w.later + 60 * SECOND)
      && o'.status == Status(false, ReadyFalse(CloudConfigFailed, c.result), None)
      && LastDeed(ss[|acts|]).ApplyRefused?
  {
    var s := LastState(ss, acts, mid);
    Commands.SelectedById(s.fleet.nodes[s.objs[mid].marks.nodeId].commands, c, ApplyCloudConfig);
    RefusedApplyReports(s.objs[mid], s.fleet, w, c);
  }

  /** So is its own reboot, once Failed or Expired on an Online node that is not back. */
  lemma RefusedRebootIsRetried(ss: seq<System>, acts: seq<Action>, mid: Mid, w: World, c: Command)
    requires IsRun(ss, acts) && acts != [] && ReadsCommands(ss, acts, mid, w) && w.nodeRead.Answered?
    requires var s := ss[|acts| - 1];
      var m := s.objs[mid].marks;
      && m.rebootAt.Sec? && c in s.fleet.nodes[m.nodeId].commands && c.id == m.rebootCommand && IsRefused(c)
      && s.fleet.nodes[m.nodeId].phase == Online && !IsBack(s.fleet.nodes[m.nodeId], m.rebootAt)
    ensures mid in ss[|acts|].objs
    ensures var o' := ss[|acts|].objs[mid];
      && o'.marks.rebootAt.Absent? && o'.marks.rebootCommand == ""
      && o'.marks.retryAt == Format(w.later + 60 * SECOND)
      && !o'.status.provisioned && o'.status.ready == ReadyFalse(Reason.RebootFailed, c.result)
      && LastDeed(ss[|acts|]).RebootRefused?
  {
    var s := LastState(ss, acts, mid);
    Commands.SelectedById(s.fleet.nodes[s.objs[mid].marks.nodeId].commands, c, RebootNode);
    RefusedRebootReports(s.objs[mid], s.fleet, w, c);
  }

  /** The state before the last action, with its machine in order. */
  lemma LastState(ss: seq<System>, acts: seq<Action>, mid: Mid) returns (s: System)
    requires IsRun(ss, acts) && acts != [] && acts[|acts| - 1].PassOver? && acts[|acts| - 1].mid == mid
    ensures s == ss[|acts| - 1] && Inv(s) && mid in s.objs && MachineOk(s, mid) && Chain(s.objs[mid])
    ensures var w := acts[|acts| - 1].world;
      PassStep(s, mid, w, Reconcile(s.objs[mid], s.fleet, w), ss[|acts|])
  {
    var rs := RunIsBehaviour(ss, acts);
    s := ss[|acts| - 1];
    assert Step(s, acts[|acts| - 1], rs[|acts| - 1], ss[|acts|]);
    assert TakesStep(ss, acts, |acts| - 1);
    assert MachineOk(s, mid);
  }
}
