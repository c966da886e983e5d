/** Where a natural claim about the controller is false as it stands: a concrete case, and the
    exact condition under which it holds. */
module Limits {
  import opened Wrappers
  import opened Clock
  import opened Fleet
  import opened Connection
  import opened Machine
  import opened Transitions
  import opened Stages
  import opened System

  /*** The rejoin gate ***/

  function NodeWithHeartbeat(h: int): Node {
    Node("n", "g", Online, Some("k"), Some(h), [])
  }

  /** An Online node's heartbeat after the recorded instant is always accepted, and an accepted
      one is always later than that instant minus one second. */
  lemma GateBounds(node: Node, t: int)
    requires node.phase == Online
    ensures node.heartbeat.Some? && node.heartbeat.value > t ==> RejoinedAfterReboot(Format(t), node)
    ensures RejoinedAfterReboot(Format(t), node) ==> node.heartbeat.Some? && node.heartbeat.value > t - SECOND
  {
    FormatBounds(t);
  }

  /** A heartbeat from before the reboot request can pass the gate. */
  lemma GateAcceptsAnOlderHeartbeat()
    ensures exists node, t :: RejoinedAfterReboot(Format(t), node) && node.heartbeat.value < t
  {
    var t := SECOND + 500_000_000;
    FormatBounds(t);
    assert RejoinedAfterReboot(Format(t), NodeWithHeartbeat(t - 1));
  }

  /** The gate means "after the reboot request" for every heartbeat exactly when the request fell
      on a whole second. */
  lemma GateExactIff(t: int)
    ensures (forall node: Node :: node.phase == Online && node.heartbeat.Some? ==>
               (RejoinedAfterReboot(Format(t), node) <==> node.heartbeat.value > t))
       <==> t % SECOND == 0
  {
    FormatBounds(t);
    if t % SECOND != 0 {
      var node := NodeWithHeartbeat(t);
      assert RejoinedAfterReboot(Format(t), node) && node.heartbeat.value == t;
    }
  }

  /*** The retry interval ***/

  /** A window lasts the full minute exactly when it opens on a whole second. */
  lemma FullMinuteIff(start: int)
    ensures (forall now :: now < start + RETRY_REBOOT ==> RetryWait(RetryWindow(start, RETRY_REBOOT), now) > 0)
       <==> start % SECOND == 0
  {
    FormatBounds(start + RETRY_REBOOT);
    if start % SECOND != 0 {
      var now := Format(start + RETRY_REBOOT).s * SECOND;
      assert now < start + RETRY_REBOOT && RetryWait(RetryWindow(start, RETRY_REBOOT), now) == 0;
    }
  }

  /** A window opened half a second past the second is over after fifty-nine and a half. */
  lemma ShortWindow()
    ensures RetryWait(RetryWindow(500_000_000, RETRY_REBOOT), 60 * SECOND) == 0
    ensures 60 * SECOND - 500_000_000 < RETRY_REBOOT
  {
    FormatBounds(500_000_000 + RETRY_REBOOT);
  }

  /*** Provisioned is not monotone, and NodeMissing is not absorbing ***/

  /** The pass found no bootstrap data or no connection, or the node gone or not (any longer)
      Online with a heartbeat after the reboot. */
  predicate Retracts(o: Object, f: FleetState, w: World) {
    w.gate.Open? && !o.deleting &&
    ( || !w.bootstrapNamed
      || FleetClientFor(w.infra).NotYet?
      || w.nodeRead.AnsweredMissing?
      || (w.nodeRead.Answered? && o.marks.nodeId !in f.nodes)
      || (w.nodeRead.Answered? && o.marks.nodeId in f.nodes
          && !RejoinedAfterReboot(o.marks.rebootAt, f.nodes[o.marks.nodeId])))
  }

  /** A provisioned machine loses it exactly in such a pass. */
  lemma UnprovisionedIff(o: Object, f: FleetState, w: World)
    requires Valid(f) && Chain(o) && o.status.provisioned
    ensures !Reconcile(o, f, w).obj.status.provisioned <==> Retracts(o, f, w)
  {
    var o1 := o.(finalizer := true);
    assert o.marks.nodeId != "" && o.marks.applied && !o.marks.rebootAt.Absent?;
    if w.gate.Open? && !o.deleting && w.bootstrapNamed && FleetClientFor(w.infra).Ready? {
      assert Normal(o1, f, w) == RejoinStage(o1, f, w);
    }
  }

  /** The pass gets as far as reading the node, and finds it Online with a heartbeat after the
      stored reboot second. */
  predicate Publishes(o: Object, f: FleetState, w: World) {
    && w.gate.Open? && !o.deleting && w.bootstrapNamed && FleetClientFor(w.infra).Ready?
    && w.nodeRead.Answered? && o.marks.nodeId in f.nodes
    && RejoinedAfterReboot(o.marks.rebootAt, f.nodes[o.marks.nodeId])
  }

  /** A machine that is not provisioned becomes so exactly in such a pass. A failure it has recorded,
      NodeMissing or any other, makes no difference and stays recorded. */
  lemma PublishesIff(o: Object, f: FleetState, w: World)
    requires Valid(f) && Chain(o) && !o.status.provisioned
    ensures Reconcile(o, f, w).obj.status.provisioned <==> Publishes(o, f, w)
    ensures Publishes(o, f, w) ==> Reconcile(o, f, w).obj.status == Status(true, ReadyTrue, o.status.failure)
  {
    if w.gate.Open? {
      OpenGate(o, f, w);
      NormalPublishesIff(o.(finalizer := true), f, w);
    }
  }

  lemma NormalPublishesIff(o: Object, f: FleetState, w: World)
    requires Valid(f) && Chain(o) && !o.status.provisioned && w.gate.Open?
    ensures var r := if o.deleting then Delete(o, f, w) else Normal(o, f, w);
      && (r.obj.status.provisioned <==> Publishes(o, f, w))
      && (Publishes(o, f, w) ==> r.obj.status == Status(true, ReadyTrue, o.status.failure))
  {
    if !o.deleting && w.bootstrapNamed && FleetClientFor(w.infra).Ready? && o.marks.nodeId == "" {
      ClaimNeverPublishes(o, f, w);
    }
  }

  lemma ClaimNeverPublishes(o: Object, f: FleetState, w: World)
    requires Valid(f) && !o.status.provisioned
    ensures !ClaimStage(o, f, w).obj.status.provisioned
  {
  }

  /** In every run: an action makes a machine provisioned if and only if it is a stored pass that
      publishes it, also when the machine had been failed as NodeMissing; and an action withdraws it
      if and only if it is a stored pass that retracts it or a move that leaves the status behind. */
  lemma ProvisionedChangesIff(ss: seq<System>, acts: seq<Action>, mid: Mid)
    requires IsRun(ss, acts) && acts != []
    requires mid in ss[|acts| - 1].objs && mid in ss[|acts|].objs
    ensures var s, a, s' := ss[|acts| - 1], acts[|acts| - 1], ss[|acts|];
      var stored := a.PassOver? && a.mid == mid && a.world.patchKept;
      if s.objs[mid].status.provisioned then
        !s'.objs[mid].status.provisioned <==>
          || (stored && Retracts(s.objs[mid], s.fleet, a.world))
          || (a.Move? && a.mid == mid && !a.statusKept)
      else
        s'.objs[mid].status.provisioned <==> stored && Publishes(s.objs[mid], s.fleet, a.world)
  {
    var rs := RunIsBehaviour(ss, acts);
    var n := |acts| - 1;
    assert Step(ss[n], acts[n], rs[n], ss[n + 1]) && MachineOk(ss[n], mid);
    assert TakesStep(ss, acts, n);
    ProvisionedStep(ss[n], acts[n], ss[n + 1], mid);
  }

  lemma ProvisionedStep(s: System, a: Action, s': System, mid: Mid)
    requires Valid(s.fleet) && Next(s, a, s') && mid in s.objs && mid in s'.objs && Chain(s.objs[mid]) && mid < s.born
    ensures var stored := a.PassOver? && a.mid == mid && a.world.patchKept;
      if s.objs[mid].status.provisioned then
        !s'.objs[mid].status.provisioned <==>
          || (stored && Retracts(s.objs[mid], s.fleet, a.world))
          || (a.Move? && a.mid == mid && !a.statusKept)
      else
        s'.objs[mid].status.provisioned <==> stored && Publishes(s.objs[mid], s.fleet, a.world)
  {
    if a.PassOver? && a.mid == mid {
      if s.objs[mid].status.provisioned {
        UnprovisionedIff(s.objs[mid], s.fleet, a.world);
      } else {
        PublishesIff(s.objs[mid], s.fleet, a.world);
      }
    }
  }

  /*** A refused reboot may be overlooked ***/

  /** The pass reads the node of a machine waiting for its rejoin, and the node is Online and shows
      the reboot refused. */
  predicate SeesRefusedReboot(o: Object, f: FleetState, w: World) {
    && w.gate.Open? && !o.deleting && w.bootstrapNamed && FleetClientFor(w.infra).Ready? && w.nodeRead.Answered?
    && o.marks.rebootAt.Sec? && o.marks.nodeId in f.nodes
    && RebootVerdict(f, w, o.marks, f.nodes[o.marks.nodeId]).Refused?
  }

  /** The heartbeat is looked at first. So a refused reboot is retried if and only if no heartbeat
      later than the stored reboot second has come in; otherwise the machine is published as
      provisioned, although its node never rebooted. */
  lemma RefusedRebootRetriedIff(o: Object, f: FleetState, w: World)
    requires Valid(f) && Chain(o) && SeesRefusedReboot(o, f, w)
    ensures var r, heartbeat := Reconcile(o, f, w), f.nodes[o.marks.nodeId].heartbeat;
      if heartbeat.Some? ==> heartbeat.value <= o.marks.rebootAt.s * SECOND then
        r.deed == RebootRefused(o.marks.nodeId, o.marks.rebootCommand) && r.obj.marks.rebootAt.Absent?
      else
        r.deed.Rejoined? && r.obj.status.provisioned && r.obj.marks == o.marks
  {
    OpenGate(o, f, w);
    RefusedInStage(o.(finalizer := true), f, w);
  }

  lemma RefusedInStage(o: Object, f: FleetState, w: World)
    requires Valid(f) && Chain(o) && SeesRefusedReboot(o, f, w)
    ensures var r, heartbeat := Normal(o, f, w), f.nodes[o.marks.nodeId].heartbeat;
      if heartbeat.Some? ==> heartbeat.value <= o.marks.rebootAt.s * SECOND then
        r.deed == RebootRefused(o.marks.nodeId, o.marks.rebootCommand) && r.obj.marks.rebootAt.Absent?
      else
        r.deed.Rejoined? && r.obj.status.provisioned && r.obj.marks == o.marks
  {
  }

  /*** The recorded failure is inert ***/

  predicate SameButFailure(o: Object, o': Object) {
    o' == o.(status := o.status.(failure := o'.status.failure))
  }

  /** The two passes agree on everything but the recorded failure. */
  ghost predicate Agree(r: Pass, r': Pass) {
    r'.fleet == r.fleet && r'.out == r.out && r'.deed == r.deed && SameButFailure(r.obj, r'.obj)
  }

  lemma AnswerIgnores(o: Object, o': Object, w: World, f': FleetState, sent: Reply<Node>)
    requires SameButFailure(o, o')
    ensures Agree(ClaimAnswered(o, w, f', sent), ClaimAnswered(o', w, f', sent))
  {
    assert ClaimKeyFor(o') == ClaimKeyFor(o);
  }

  lemma ClaimIgnores(o: Object, o': Object, f: FleetState, w: World)
    requires SameButFailure(o, o') && Valid(f)
    ensures Agree(ClaimStage(o, f, w), ClaimStage(o', f, w))
  {
    assert ClaimKeyFor(o') == ClaimKeyFor(o);
    if w.groups.Some? && ResolveGroup(w.groups.value, o.group).Ok? {
      var (f', sent) := Claim(f, ResolveGroup(w.groups.value, o.group).value, ClaimKeyFor(o));
      AnswerIgnores(o, o', w, f', sent);
    }
  }

  lemma ApplyIgnores(o: Object, o': Object, f: FleetState, w: World)
    requires SameButFailure(o, o')
    ensures Agree(ApplyStage(o, f, w), ApplyStage(o', f, w))
  {
  }

  lemma SendIgnores(o: Object, o': Object, f: FleetState, w: World)
    requires SameButFailure(o, o')
    ensures Agree(SendReboot(o, f, w), SendReboot(o', f, w))
  {
  }

  lemma RebootIgnores(o: Object, o': Object, f: FleetState, w: World)
    requires SameButFailure(o, o')
    ensures Agree(RebootStage(o, f, w), RebootStage(o', f, w))
  {
    if CommandVerdict(f, w, o.marks.nodeId, o.marks.applyCommand, ApplyCloudConfig).Succeeded? {
      SendIgnores(o, o', f, w);
    }
  }

  lemma RejoinIgnores(o: Object, o': Object, f: FleetState, w: World)
    requires SameButFailure(o, o')
    ensures Agree(RejoinStage(o, f, w), RejoinStage(o', f, w))
  {
  }

  lemma DeleteIgnores(o: Object, o': Object, f: FleetState, w: World)
    requires SameButFailure(o, o')
    ensures Agree(Delete(o, f, w), Delete(o', f, w))
  {
    assert ClaimKeyFor(o') == ClaimKeyFor(o);
  }

  lemma NormalIgnores(o: Object, o': Object, f: FleetState, w: World)
    requires SameButFailure(o, o') && Valid(f)
    ensures Agree(Normal(o, f, w), Normal(o', f, w))
  {
    if w.bootstrapNamed && FleetClientFor(w.infra).Ready? {
      if o.marks.nodeId == "" {
        ClaimIgnores(o, o', f, w);
      } else if !o.marks.applied {
        ApplyIgnores(o, o', f, w);
      } else if o.marks.rebootAt.Absent? {
        RebootIgnores(o, o', f, w);
      } else {
        RejoinIgnores(o, o', f, w);
      }
    }
  }

  /** The recorded failure is never consulted: for two objects that differ only in it, a pass does
      the same to the markers, the rest of the status, the fleet and the result. */
  lemma FailureIsIgnored(o: Object, o': Object, f: FleetState, w: World)
    requires SameButFailure(o, o') && Valid(f)
    ensures Agree(Reconcile(o, f, w), Reconcile(o', f, w))
  {
    if w.gate.Open? {
      if o.deleting {
        DeleteIgnores(o.(finalizer := true), o'.(finalizer := true), f, w);
      } else {
        NormalIgnores(o.(finalizer := true), o'.(finalizer := true), f, w);
      }
    }
  }

  /** The pass reads the outcome of a queued apply, and it is Failed or Expired. */
  predicate SeesRefusedApply(o: Object, f: FleetState, w: World) {
    && w.gate.Open? && !o.deleting && w.bootstrapNamed && FleetClientFor(w.infra).Ready?
    && o.marks.applied && o.marks.rebootAt.Absent?
    && CommandVerdict(f, w, o.marks.nodeId, o.marks.applyCommand, ApplyCloudConfig).Refused?
  }

  /** A failure, once recorded, is cleared exactly by a pass that sees the apply refused: the machine
      becoming Ready does not clear it. */
  lemma FailureClearedIff(o: Object, f: FleetState, w: World)
    requires Valid(f) && Chain(o) && o.status.failure.Some?
    ensures Reconcile(o, f, w).obj.status.failure == None <==> SeesRefusedApply(o, f, w)
    ensures Reconcile(o, f, w).deed.Rejoined? ==>
      Reconcile(o, f, w).obj.status == Status(true, ReadyTrue, o.status.failure)
  {
    ReconcileShape(o, f, w);
    ApplyRefusedIff(o, f, w);
  }

  lemma ApplyRefusedIff(o: Object, f: FleetState, w: World)
    requires Valid(f) && Chain(o)
    ensures Reconcile(o, f, w).deed.ApplyRefused? <==> SeesRefusedApply(o, f, w)
  {
    if w.gate.Open? {
      OpenGate(o, f, w);
      RefusedInNormal(o.(finalizer := true), f, w);
    }
  }

  lemma RefusedInNormal(o: Object, f: FleetState, w: World)
    requires Valid(f) && Chain(o) && w.gate.Open?
    ensures (if o.deleting then Delete(o, f, w) else Normal(o, f, w)).deed.ApplyRefused? <==> SeesRefusedApply(o, f, w)
  {
  }
}
