/** How a machine gets provisioned: the four passes of a cooperative fleet, a measure every
    unobstructed pass lowers, and that no pass leaves the controller with nothing to wake it. */
module Progress {
  import opened Wrappers
  import opened Clock
  import opened Fleet
  import opened Connection
  import opened Machine
  import opened Transitions
  import opened Stages
  import opened System
  import Commands
  import History
  import Ownership

  /*** Never stuck ***/

  /** If the pass's patch is kept, something will bring about another pass, or none is needed: it
      returned an error, asks to be called again, has changed the object (whose watch calls again),
      waits for the bootstrap data (whose arrival calls again), or ended Provisioned or NodeMissing. */
  predicate Awake(o: Object, w: World, r: Pass) {
    || r.out.failed || r.out.requeueAfter > 0 || r.obj != o
    || !w.bootstrapNamed
    || (r.obj.status.provisioned && r.deed.Rejoined?)
    || r.obj.status.ready == ReadyFalse(NodeMissing, "")
  }

  predicate DelayBounded(o: Object, w: World, r: Pass) {
    r.out.requeueAfter <= RETRY_REBOOT || r.out.requeueAfter == RetryWait(o.marks.retryAt, w.now)
  }

  /** No open-gate pass over a live machine leaves it stuck: the outcome it reports has an error or a
      positive requeue delay, or the stored object has changed, or its patch was kept and it waits for
      the bootstrap data or ended Provisioned or NodeMissing. None asks for a delay of more than 60 s
      except to sit out the window already open. */
  lemma NeverStuck(o: Object, f: FleetState, w: World)
    requires Valid(f) && Chain(o) && !o.deleting && w.gate.Open?
    ensures var r := Reconcile(o, f, w);
      var out, stored := Reported(r.out, w), if w.patchKept then r.obj else o;
      || out.failed || out.requeueAfter > 0 || stored != o
      || (w.patchKept &&
          (|| !w.bootstrapNamed
           || (stored.status.provisioned && r.deed.Rejoined?)
           || stored.status.ready == ReadyFalse(NodeMissing, "")))
    ensures DelayBounded(o, w, Reconcile(o, f, w))
  {
    OpenGate(o, f, w);
    NormalNeverStuck(o.(finalizer := true), f, w);
  }

  lemma NormalNeverStuck(o: Object, f: FleetState, w: World)
    requires Valid(f) && Chain(o) && !o.deleting && o.finalizer
    ensures var r := Normal(o, f, w);
      Awake(o, w, r) && DelayBounded(o, w, r) && r.obj.finalizer
  {
    if w.bootstrapNamed && FleetClientFor(w.infra).Ready? {
      if o.marks.nodeId == "" {
        ClaimNeverStuck(o, f, w);
      } else if o.marks.applied && o.marks.rebootAt.Absent? {
        RebootNeverStuck(o, f, w);
      }
    }
  }

  lemma ClaimNeverStuck(o: Object, f: FleetState, w: World)
    requires Valid(f) && o.marks.nodeId == "" && o.finalizer
    ensures var r := ClaimStage(o, f, w);
      r.obj.finalizer && (r.out.failed || r.out == Outcome(WAIT_FOR_CAPACITY, false) || r.obj.marks.nodeId != "")
      && r.out.requeueAfter <= WAIT_FOR_CAPACITY
  {
    if w.groups.Some? && ResolveGroup(w.groups.value, o.group).Ok? {
      ClaimAnswerNeverStuck(o, f, w, ResolveGroup(w.groups.value, o.group).value);
    }
  }

  lemma ClaimAnswerNeverStuck(o: Object, f: FleetState, w: World, g: GroupId)
    requires Valid(f) && o.marks.nodeId == "" && o.finalizer
    ensures var (f', sent) := Claim(f, g, ClaimKeyFor(o));
      var r := ClaimAnswered(o, w, f', sent);
      r.obj.finalizer && (r.out.failed || r.out == Outcome(WAIT_FOR_CAPACITY, false) || r.obj.marks.nodeId != "")
      && r.out.requeueAfter <= WAIT_FOR_CAPACITY
  {
    ClaimSound(f, g, ClaimKeyFor(o));
  }

  lemma RebootNeverStuck(o: Object, f: FleetState, w: World)
    requires o.finalizer
    ensures var r := RebootStage(o, f, w);
      (r.out.failed || r.out.requeueAfter > 0) && DelayBounded(o, w, r) && r.obj.finalizer
  {
  }

  /*** The four passes ***/

  /** A pass in which everything works. */
  predicate Smooth(w: World) {
    && w.gate.Open? && w.bootstrapNamed && w.bootstrap.Data? && FleetClientFor(w.infra).Ready?
    && w.groups.Some? && w.fault.Clean? && w.nodeRead.Answered? && !w.commandsReadFails && w.newId != ""
  }

  /** The node's history shows the command with this ID completed. */
  ghost predicate HasCompleted(f: FleetState, n: NodeId, id: string) {
    && n in f.nodes && Commands.DistinctIds(f.nodes[n].commands)
    && exists c :: c in f.nodes[n].commands && c.id == id && c.phase == Completed
  }

  lemma CompletedReadsSucceeded(f: FleetState, w: World, n: NodeId, id: string, kind: CommandKind)
    requires HasCompleted(f, n, id) && id != "" && !w.commandsReadFails
    ensures CommandVerdict(f, w, n, id, kind) == Commands.Succeeded
  {
    var c :| c in f.nodes[n].commands && c.id == id && c.phase == Completed;
    Commands.OnlyTheRecordedCommand(f.nodes[n].commands, f.nodes[n].commands, c, kind);
  }

  /** First pass: claim. */
  lemma FirstPass(uid: Uid, group: string, f: FleetState, w: World)
    requires Valid(f) && uid != "" && Smooth(w)
    requires ResolveGroup(w.groups.value, group).Ok?
    requires HeldBy(f, uid).Some? || FreeIn(f, ResolveGroup(w.groups.value, group).value) != {}
    ensures var o := Reconcile(Fresh(uid, group), f, w).obj;
      && !o.status.provisioned && !o.deleting && o.uid == uid
      && o.marks == NO_MARKS.(nodeId := o.marks.nodeId, claimKey := uid) && o.marks.nodeId != ""
      && Holds(Reconcile(Fresh(uid, group), f, w).fleet, o.marks.nodeId, uid)
  {
    ClaimSound(f, ResolveGroup(w.groups.value, group).value, uid);
  }

  /** Second pass: apply. */
  lemma SecondPass(o: Object, f: FleetState, w: World)
    requires Valid(f) && Smooth(w) && !o.deleting && o.marks.nodeId in f.nodes
    requires o.marks == NO_MARKS.(nodeId := o.marks.nodeId, claimKey := o.marks.claimKey)
    ensures var r := Reconcile(o, f, w);
      && !r.obj.status.provisioned && !r.obj.deleting
      && r.obj.marks == o.marks.(applied := true, applyCommand := w.newId)
      && r.deed == ApplyQueued(o.marks.nodeId, w.bootstrap.data, w.newId, w.queuedAt)
  {
    assert o.marks.nodeId != "";
  }

  /** Third pass: reboot. */
  lemma ThirdPass(o: Object, f: FleetState, w: World, id: string)
    requires Valid(f) && Smooth(w) && !o.deleting && o.marks.nodeId in f.nodes && id != ""
    requires o.marks == NO_MARKS.(nodeId := o.marks.nodeId, claimKey := o.marks.claimKey,
                                  applied := true, applyCommand := id)
    requires HasCompleted(f, o.marks.nodeId, id)
    ensures var r := Reconcile(o, f, w);
      && !r.obj.status.provisioned && !r.obj.deleting
      && r.obj.marks == o.marks.(rebootAt := Format(w.later), rebootCommand := w.newId)
      && r.deed == RebootQueued(o.marks.nodeId, id, w.newId, w.queuedAt)
  {
    assert o.marks.nodeId != "";
    CompletedReadsSucceeded(f, w, o.marks.nodeId, id, ApplyCloudConfig);
  }

  /** Fourth pass: publish. */
  lemma FourthPass(o: Object, f: FleetState, w: World)
    requires Valid(f) && Smooth(w) && !o.deleting && o.marks.nodeId in f.nodes
    requires o.marks.applied && o.marks.rebootAt.Sec?
    requires RejoinedAfterReboot(o.marks.rebootAt, f.nodes[o.marks.nodeId])
    ensures var r := Reconcile(o, f, w);
      && r.obj.status.provisioned && r.obj.status.ready.ReadyTrue?
      && r.obj.providerID == Some(PROVIDER_ID_PREFIX + o.marks.nodeId) && r.obj.marks == o.marks
      && r.out == DONE
  {
    assert o.marks.nodeId != "";
  }

  /** A cooperative fleet provisions a fresh machine in exactly four passes, whatever else the
      fleet does in between: the group has a free node, the node stays enrolled, the apply is
      Completed by the third pass, and by the fourth the node is Online with any heartbeat later
      than the instant the reboot was recorded. None of the first three passes provisions it. */
  lemma ProvisionedInFourPasses(uid: Uid, group: string,
                                f1: FleetState, f2: FleetState, f3: FleetState, f4: FleetState,
                                w1: World, w2: World, w3: World, w4: World)
    requires Valid(f1) && Valid(f2) && Valid(f3) && Valid(f4) && uid != ""
    requires Smooth(w1) && Smooth(w2) && Smooth(w3) && Smooth(w4)
    requires ResolveGroup(w1.groups.value, group).Ok?
    requires HeldBy(f1, uid).Some? || FreeIn(f1, ResolveGroup(w1.groups.value, group).value) != {}
    requires var n := Reconcile(Fresh(uid, group), f1, w1).obj.marks.nodeId;
      && n in f2.nodes && n in f4.nodes && HasCompleted(f3, n, w2.newId)
      && f4.nodes[n].phase == Online && f4.nodes[n].heartbeat.Some? && f4.nodes[n].heartbeat.value > w3.later
    ensures var o1 := Reconcile(Fresh(uid, group), f1, w1).obj;
      var o2 := Reconcile(o1, f2, w2).obj;
      var o3 := Reconcile(o2, f3, w3).obj;
      var o4 := Reconcile(o3, f4, w4).obj;
      && !o1.status.provisioned && !o2.status.provisioned && !o3.status.provisioned && o4.status.provisioned
      && o4.providerID == Some(PROVIDER_ID_PREFIX + o1.marks.nodeId)
      && o4.marks == Marks(o1.marks.nodeId, uid, true, w2.newId, Format(w3.later), w3.newId, Absent)
  {
    FirstPass(uid, group, f1, w1);
    var o1 := Reconcile(Fresh(uid, group), f1, w1).obj;
    SecondPass(o1, f2, w2);
    var o2 := Reconcile(o1, f2, w2).obj;
    ThirdPass(o2, f3, w3, w2.newId);
    var o3 := Reconcile(o2, f3, w3).obj;
    FormatBounds(w3.later);
    FourthPass(o3, f4, w4);
  }

  /*** A measure ***/

  function StagesLeft(o: Object): nat {
    if o.status.provisioned then 0
    else if !o.marks.rebootAt.Absent? then 1
    else if o.marks.applied then 2
    else if o.marks.nodeId != "" then 3
    else 4
  }

  datatype Measure = Measure(failures: nat, stages: nat, wait: nat)

  function MeasureOf(o: Object, failures: nat, now: int): Measure {
    Measure(failures, StagesLeft(o), RetryWait(o.marks.retryAt, now))
  }

  /** Lexicographically smaller. */
  predicate Below(a: Measure, b: Measure) {
    || a.failures < b.failures
    || (a.failures == b.failures && a.stages < b.stages)
    || (a.failures == b.failures && a.stages == b.stages && a.wait < b.wait)
  }

  /** The fleet gives the machine's current stage what it waits for: a node to claim; a reachable
      node to command; an outcome, good or bad, for the command it queued; the rejoin. */
  predicate Unobstructed(o: Object, f: FleetState, w: World)
    requires Valid(f)
  {
    && Smooth(w)
    && if o.marks.nodeId == "" then
         ResolveGroup(w.groups.value, o.group).Ok?
         && (HeldBy(f, ClaimKeyFor(o)).Some? || FreeIn(f, ResolveGroup(w.groups.value, o.group).value) != {})
       else
         && o.marks.nodeId in f.nodes
         && (o.marks.applied && o.marks.rebootAt.Absent? ==>
               !CommandVerdict(f, w, o.marks.nodeId, o.marks.applyCommand, ApplyCloudConfig).Undecided?)
         && (!o.marks.rebootAt.Absent? ==>
               RejoinedAfterReboot(o.marks.rebootAt, f.nodes[o.marks.nodeId])
               || RebootVerdict(f, w, o.marks, f.nodes[o.marks.nodeId]).Refused?)
  }

  predicate IsRefusal(d: Deed) { d.ApplyRefused? || d.RebootRefused? }

  /** Every unobstructed pass over a machine that is not yet provisioned, measured at this pass's
      clock and at any later one, lowers the measure: it uses up one of the failures left, or
      completes a stage, or waits out part of a retry window. So with finitely many failures to
      come the machine is provisioned. */
  lemma MeasureFalls(o: Object, f: FleetState, w: World, failures: nat, next: int)
    requires Valid(f) && Chain(o) && !o.deleting && !o.status.provisioned && Unobstructed(o, f, w)
    requires w.now < next
    requires IsRefusal(Reconcile(o, f, w).deed) ==> failures > 0
    ensures var r := Reconcile(o, f, w);
      Below(MeasureOf(r.obj, if IsRefusal(r.deed) then failures - 1 else failures, next), MeasureOf(o, failures, w.now))
    ensures Reconcile(o, f, w).deed.Idle? ==>
              Reconcile(o, f, w).out == Outcome(RetryWait(o.marks.retryAt, w.now), false)
  {
    var o1 := o.(finalizer := true);
    if o.marks.nodeId == "" {
      ClaimMoves(o1, f, w);
    } else if !o.marks.applied {
      ApplyMoves(o1, f, w, next);
    } else if o.marks.rebootAt.Absent? {
      RebootMoves(o1, f, w, next);
    } else {
      RejoinMoves(o1, f, w);
    }
  }

  lemma ClaimMoves(o: Object, f: FleetState, w: World)
    requires Valid(f) && Chain(o) && !o.deleting && !o.status.provisioned && Unobstructed(o, f, w)
    requires o.marks.nodeId == ""
    ensures var r := ClaimStage(o, f, w); StagesLeft(r.obj) == 3 && r.deed.Claimed?
  {
    ClaimSound(f, ResolveGroup(w.groups.value, o.group).value, ClaimKeyFor(o));
  }

  lemma ApplyMoves(o: Object, f: FleetState, w: World, next: int)
    requires Valid(f) && Chain(o) && !o.deleting && !o.status.provisioned && Unobstructed(o, f, w)
    requires o.marks.nodeId != "" && !o.marks.applied && w.now < next
    ensures var r := ApplyStage(o, f, w);
      || (StagesLeft(r.obj) == 2 && r.deed.ApplyQueued?)
      || (r == Pass(o, f, Outcome(RetryWait(o.marks.retryAt, w.now), false), Idle)
          && RetryWait(o.marks.retryAt, next) < RetryWait(o.marks.retryAt, w.now))
  {
  }

  lemma RebootMoves(o: Object, f: FleetState, w: World, next: int)
    requires Valid(f) && Chain(o) && !o.deleting && !o.status.provisioned && Unobstructed(o, f, w)
    requires o.marks.applied && o.marks.rebootAt.Absent? && w.now < next
    ensures var r := RebootStage(o, f, w);
      || r.deed.ApplyRefused?
      || (StagesLeft(r.obj) == 1 && r.deed.RebootQueued?)
      || (r == Pass(o, f, Outcome(RetryWait(o.marks.retryAt, w.now), false), Idle)
          && RetryWait(o.marks.retryAt, next) < RetryWait(o.marks.retryAt, w.now))
  {
  }

  lemma RejoinMoves(o: Object, f: FleetState, w: World)
    requires Valid(f) && Chain(o) && !o.deleting && Unobstructed(o, f, w) && !o.marks.rebootAt.Absent?
    ensures var r := RejoinStage(o, f, w);
      r.deed.RebootRefused? || (StagesLeft(r.obj) == 0 && r.deed.Rejoined?)
  {
  }

  /*** How many passes it takes ***/

  /** One visit of the controller: the fleet it finds and the circumstances it meets. */
  datatype Visit = Visit(f: FleetState, w: World)

  /** The machine after the visits. */
  ghost function After(o: Object, vs: seq<Visit>): Object
    requires forall v :: v in vs ==> Valid(v.f)
    decreases |vs|
  {
    if vs == [] then o else After(Reconcile(o, vs[0].f, vs[0].w).obj, vs[1..])
  }

  /** How many of the visits find a command refused. */
  ghost function Refusals(o: Object, vs: seq<Visit>): nat
    requires forall v :: v in vs ==> Valid(v.f)
    decreases |vs|
  {
    if vs == [] then 0 else
    var r := Reconcile(o, vs[0].f, vs[0].w);
    (if IsRefusal(r.deed) then 1 else 0) + Refusals(r.obj, vs[1..])
  }

  /** Visits until the machine is provisioned: all unobstructed, none before the delay the one
      before asked for, the fleet changing at will in between. */
  ghost predicate Timely(o: Object, vs: seq<Visit>)
    requires forall v :: v in vs ==> Valid(v.f)
    decreases |vs|
  {
    vs == [] ||
    var w := vs[0].w;
    var r := Reconcile(o, vs[0].f, w);
    && !o.status.provisioned && Unobstructed(o, vs[0].f, w) && w.now <= w.later
    && (|vs| > 1 ==> vs[1].w.now >= w.later + r.out.requeueAfter)
    && Timely(r.obj, vs[1..])
  }

  /** One stage on, or one back on a refusal; and whatever window the pass opens is over once the
      delay it asks for is. */
  ghost predicate OneStageOn(o: Object, w: World, r: Pass) {
    && StagesLeft(r.obj) == (if IsRefusal(r.deed) then StagesLeft(o) + 1 else StagesLeft(o) - 1)
    && forall next :: next >= w.later + r.out.requeueAfter ==> RetryWait(r.obj.marks.retryAt, next) == 0
  }

  /** Outside any retry window, an unobstructed pass completes one stage or, on a refusal, falls
      back one. */
  lemma OneStageAtATime(o: Object, f: FleetState, w: World)
    requires Valid(f) && Chain(o) && !o.deleting && !o.status.provisioned && Unobstructed(o, f, w)
    requires RetryWait(o.marks.retryAt, w.now) == 0
    ensures OneStageOn(o, w, Reconcile(o, f, w))
  {
    OpenGate(o, f, w);
    NormalStageOn(o.(finalizer := true), f, w);
  }

  lemma NormalStageOn(o: Object, f: FleetState, w: World)
    requires Valid(f) && Chain(o) && !o.deleting && !o.status.provisioned && Unobstructed(o, f, w)
    requires RetryWait(o.marks.retryAt, w.now) == 0
    ensures OneStageOn(o, w, Normal(o, f, w))
  {
    if o.marks.nodeId == "" {
      ClaimMoves(o, f, w);
    } else if !o.marks.applied {
      ApplyMoves(o, f, w, w.now + 1);
    } else if o.marks.rebootAt.Absent? {
      RebootStageOn(o, f, w);
    } else {
      RejoinStageOn(o, f, w);
    }
  }

  lemma RebootStageOn(o: Object, f: FleetState, w: World)
    requires Valid(f) && Chain(o) && !o.deleting && !o.status.provisioned && Unobstructed(o, f, w)
    requires RetryWait(o.marks.retryAt, w.now) == 0 && o.marks.applied && o.marks.rebootAt.Absent?
    ensures OneStageOn(o, w, RebootStage(o, f, w))
  {
    FormatBounds(w.later + RETRY_CLOUD_CONFIG);
  }

  lemma RejoinStageOn(o: Object, f: FleetState, w: World)
    requires Valid(f) && Chain(o) && !o.deleting && !o.status.provisioned && Unobstructed(o, f, w)
    requires !o.marks.rebootAt.Absent?
    ensures OneStageOn(o, w, RejoinStage(o, f, w))
  {
    FormatBounds(w.later + RETRY_REBOOT);
  }

  lemma ReconcileChain(o: Object, f: FleetState, w: World)
    requires Valid(f) && Chain(o) && w.newId != ""
    ensures Chain(Reconcile(o, f, w).obj) && Reconcile(o, f, w).obj.deleting == o.deleting
  {
    ReconcileShape(o, f, w);
    ChainKept(o, f, w, Reconcile(o, f, w));
  }

  lemma {:induction false} StagesCounted(o: Object, vs: seq<Visit>)
    requires forall v :: v in vs ==> Valid(v.f)
    requires Chain(o) && !o.deleting && Timely(o, vs)
    requires vs != [] ==> RetryWait(o.marks.retryAt, vs[0].w.now) == 0
    ensures StagesLeft(After(o, vs)) == StagesLeft(o) + 2 * Refusals(o, vs) - |vs|
    decreases |vs|
  {
    if vs != [] {
      OneStageAtATime(o, vs[0].f, vs[0].w);
      ReconcileChain(o, vs[0].f, vs[0].w);
      StagesCounted(Reconcile(o, vs[0].f, vs[0].w).obj, vs[1..]);
    }
  }

  /** With R commands refused on the way, a fresh machine visited when it asks to be, and given
      what it waits for, is provisioned by pass 4 + 2R exactly, and not before. */
  lemma {:induction false} ProvisionedByPass(uid: Uid, group: string, vs: seq<Visit>)
    requires uid != "" && (forall v :: v in vs ==> Valid(v.f)) && Timely(Fresh(uid, group), vs)
    ensures |vs| <= 4 + 2 * Refusals(Fresh(uid, group), vs)
    ensures After(Fresh(uid, group), vs).status.provisioned <==> |vs| == 4 + 2 * Refusals(Fresh(uid, group), vs)
  {
    StagesCounted(Fresh(uid, group), vs);
  }

  /*** Every run ***/

  datatype Tallied = EveryPass | StoredRefusal | HinderedPass

  /** A pass that may fail to move the machine on: its patch is lost, the fleet or the connection does
      not give it what it waits for, or it comes inside a retry window. */
  predicate Hindered(s: System, mid: Mid, w: World)
    requires Valid(s.fleet) && mid in s.objs
  {
    !w.patchKept || !Unobstructed(s.objs[mid], s.fleet, w) || RetryWait(s.objs[mid].marks.retryAt, w.now) > 0
  }

  /** Action i of the run is a pass over the machine of the given sort. */
  ghost predicate IsTallied(ss: seq<System>, acts: seq<Action>, mid: Mid, i: nat, sort: Tallied)
    requires |ss| == |acts| + 1 && i < |acts|
  {
    && acts[i].PassOver? && acts[i].mid == mid && mid in ss[i].objs && Valid(ss[i].fleet)
    && match sort
       case EveryPass => true
       case StoredRefusal => IsRefusal(LastDeed(ss[i + 1])) && acts[i].world.patchKept
       case HinderedPass => Hindered(ss[i], mid, acts[i].world)
  }

  /** How many of the first n actions are such passes. */
  ghost function Tally(ss: seq<System>, acts: seq<Action>, mid: Mid, n: nat, sort: Tallied): nat
    requires |ss| == |acts| + 1 && n <= |acts|
  {
    if n == 0 then 0
    else Tally(ss, acts, mid, n - 1, sort) + if IsTallied(ss, acts, mid, n - 1, sort) then 1 else 0
  }

  /** A pass over a machine not yet provisioned never sets it back a stage unless it sees a command
      refused, and then by one. */
  lemma StagesHold(o: Object, f: FleetState, w: World, r: Pass)
    requires Chain(o) && !o.status.provisioned && !o.deleting && DeedEffect(o, f, w, r)
    ensures StagesLeft(r.obj) <= StagesLeft(o) + if IsRefusal(r.deed) then 1 else 0
  {
  }

  /** The pass from s to s' sets the machine back only on a stored refusal, and by one stage; and if
      it is not hindered, it completes a stage otherwise. */
  ghost predicate TalliedWell(s: System, mid: Mid, w: World, s': System)
    requires Valid(s.fleet) && mid in s.objs && mid in s'.objs
  {
    var back := if IsRefusal(LastDeed(s')) && w.patchKept then 1 else 0;
    && StagesLeft(s'.objs[mid]) <= StagesLeft(s.objs[mid]) + back
    && (!Hindered(s, mid, w) ==> StagesLeft(s'.objs[mid]) == StagesLeft(s.objs[mid]) - 1 + 2 * back)
  }

  /** What a pass does to the stages left, as far as it is stored. */
  lemma PassTallied(s: System, mid: Mid, w: World, r: Pass, s': System)
    requires Step(s, PassOver(mid, w), r, s') && r == Reconcile(s.objs[mid], s.fleet, w) && mid in s'.objs
    requires !s.objs[mid].deleting && !s.objs[mid].status.provisioned
    ensures TalliedWell(s, mid, w, s')
  {
    assert MachineOk(s, mid) && (s'.objs[mid] == if w.patchKept then r.obj else s.objs[mid]);
    StagesHold(s.objs[mid], s.fleet, w, r);
    UnhinderedMoves(s, mid, w);
  }

  lemma UnhinderedMoves(s: System, mid: Mid, w: World)
    requires Valid(s.fleet) && mid in s.objs && Chain(s.objs[mid])
    requires !s.objs[mid].deleting && !s.objs[mid].status.provisioned
    ensures var r := Reconcile(s.objs[mid], s.fleet, w);
      !Hindered(s, mid, w) ==>
        w.patchKept && StagesLeft(r.obj) == StagesLeft(s.objs[mid]) - 1 + if IsRefusal(r.deed) then 2 else 0
  {
    if !Hindered(s, mid, w) {
      OneStageAtATime(s.objs[mid], s.fleet, w);
    }
  }

  /** Other actions leave the stages of a machine not yet provisioned alone. */
  lemma OthersTallied(s: System, a: Action, r: Pass, s': System, mid: Mid)
    requires Step(s, a, r, s') && mid in s.objs && mid in s'.objs && !(a.PassOver? && a.mid == mid)
    requires !s.objs[mid].status.provisioned
    ensures StagesLeft(s'.objs[mid]) == StagesLeft(s.objs[mid])
  {
    History.OthersPass(s, a, r, s', mid);
  }

  /** The passes over the machine that were not hindered are the stages behind it, and two more for
      each refusal. */
  ghost predicate Paced(ss: seq<System>, acts: seq<Action>, mid: Mid, i: nat)
    requires |ss| == |acts| + 1 && i <= |acts| && mid in ss[i].objs
  {
    var passes, hindered := Tally(ss, acts, mid, i, EveryPass), Tally(ss, acts, mid, i, HinderedPass);
    var due := 4 - StagesLeft(ss[i].objs[mid]) + 2 * Tally(ss, acts, mid, i, StoredRefusal);
    passes <= due + hindered && (hindered == 0 ==> passes == due)
  }

  /** A machine not yet created gets no passes. */
  lemma {:induction false} NoPassesBefore(ss: seq<System>, acts: seq<Action>, rs: seq<Pass>,
                                          mid: Mid, i: nat, sort: Tallied)
    requires Behaviour(ss, acts, rs) && i <= |acts| && mid >= ss[i].born
    ensures Tally(ss, acts, mid, i, sort) == 0
  {
    if i > 0 {
      UnbornBefore(ss, acts, rs, mid, i - 1);
      NoPassesBefore(ss, acts, rs, mid, i - 1, sort);
    }
  }

  lemma UnbornBefore(ss: seq<System>, acts: seq<Action>, rs: seq<Pass>, mid: Mid, i: nat)
    requires Behaviour(ss, acts, rs) && i < |acts| && mid >= ss[i + 1].born
    ensures mid >= ss[i].born && mid !in ss[i].objs
  {
    assert Step(ss[i], acts[i], rs[i], ss[i + 1]);
    assert mid in ss[i].objs ==> MachineOk(ss[i], mid);
  }

  lemma JustCreated(ss: seq<System>, acts: seq<Action>, rs: seq<Pass>, mid: Mid, i: nat)
    requires Behaviour(ss, acts, rs) && i < |acts| && mid !in ss[i].objs && mid in ss[i + 1].objs
    ensures mid >= ss[i].born && StagesLeft(ss[i + 1].objs[mid]) == 4
  {
    assert Step(ss[i], acts[i], rs[i], ss[i + 1]);
  }

  /** What action i may do to the stages left: a pass that is not hindered completes one, or sets the
      machine back one on a refusal; a hindered one sets it back only on a stored refusal; other
      actions change nothing. */
  ghost predicate StagesMove(ss: seq<System>, acts: seq<Action>, mid: Mid, i: nat, left: nat, left': nat)
    requires |ss| == |acts| + 1 && i < |acts|
  {
    if IsTallied(ss, acts, mid, i, EveryPass) then
      var back := if IsTallied(ss, acts, mid, i, StoredRefusal) then 1 else 0;
      && left' <= left + back
      && (!IsTallied(ss, acts, mid, i, HinderedPass) ==> left' == left - 1 + 2 * back)
    else
      left' == left
  }

  lemma StagesAt(ss: seq<System>, acts: seq<Action>, rs: seq<Pass>, mid: Mid, i: nat)
    requires IsRun(ss, acts) && Behaviour(ss, acts, rs) && i < |acts|
    requires mid in ss[i].objs && mid in ss[i + 1].objs
    requires !ss[i + 1].objs[mid].deleting && !ss[i].objs[mid].status.provisioned
    ensures !ss[i].objs[mid].deleting
    ensures StagesMove(ss, acts, mid, i, StagesLeft(ss[i].objs[mid]), StagesLeft(ss[i + 1].objs[mid]))
  {
    NotDeletedBefore(ss, acts, rs, mid, i);
    if acts[i].PassOver? && acts[i].mid == mid {
      StagesAtPass(ss, acts, mid, i);
    } else {
      OthersTallied(ss[i], acts[i], rs[i], ss[i + 1], mid);
    }
  }

  lemma NotDeletedBefore(ss: seq<System>, acts: seq<Action>, rs: seq<Pass>, mid: Mid, i: nat)
    requires Behaviour(ss, acts, rs) && i < |acts|
    requires mid in ss[i].objs && mid in ss[i + 1].objs && !ss[i + 1].objs[mid].deleting
    ensures !ss[i].objs[mid].deleting
    ensures Inv(ss[i]) && Step(ss[i], acts[i], rs[i], ss[i + 1])
  {
    assert Step(ss[i], acts[i], rs[i], ss[i + 1]);
    Ownership.RecordStep(ss[i], acts[i], rs[i], ss[i + 1], mid);
  }

  lemma StagesAtPass(ss: seq<System>, acts: seq<Action>, mid: Mid, i: nat)
    requires IsRun(ss, acts) && i < |acts| && Inv(ss[i]) && acts[i].PassOver? && acts[i].mid == mid
    requires mid in ss[i].objs && mid in ss[i + 1].objs
    requires !ss[i].objs[mid].deleting && !ss[i].objs[mid].status.provisioned
    ensures StagesMove(ss, acts, mid, i, StagesLeft(ss[i].objs[mid]), StagesLeft(ss[i + 1].objs[mid]))
  {
    assert TakesStep(ss, acts, i);
    NextTallied(ss[i], mid, acts[i].world, ss[i + 1]);
  }

  lemma NextTallied(s: System, mid: Mid, w: World, s': System)
    requires Inv(s) && Next(s, PassOver(mid, w), s') && mid in s.objs && mid in s'.objs
    requires !s.objs[mid].deleting && !s.objs[mid].status.provisioned
    ensures TalliedWell(s, mid, w, s')
  {
    var r := NextStep(s, PassOver(mid, w), s');
    PassTallied(s, mid, w, r, s');
  }

  /** The tallies of the first i + 1 actions from those of the first i. */
  lemma TallyStep(ss: seq<System>, acts: seq<Action>, mid: Mid, i: nat, left: nat, left': nat)
    requires |ss| == |acts| + 1 && i < |acts|
    requires mid in ss[i].objs && StagesLeft(ss[i].objs[mid]) == left && Paced(ss, acts, mid, i)
    requires mid in ss[i + 1].objs && StagesLeft(ss[i + 1].objs[mid]) == left'
    requires StagesMove(ss, acts, mid, i, left, left')
    ensures Paced(ss, acts, mid, i + 1)
  {
    assert forall sort :: IsTallied(ss, acts, mid, i, sort) ==> IsTallied(ss, acts, mid, i, EveryPass);
  }

  lemma {:induction false} PacedAlong(ss: seq<System>, acts: seq<Action>, rs: seq<Pass>, mid: Mid, i: nat)
    requires IsRun(ss, acts) && Behaviour(ss, acts, rs) && i <= |acts|
    requires mid in ss[i].objs && !ss[i].objs[mid].deleting
    requires forall j :: 0 <= j < i && mid in ss[j].objs ==> !ss[j].objs[mid].status.provisioned
    ensures Paced(ss, acts, mid, i)
  {
    if i > 0 {
      if mid in ss[i - 1].objs {
        StagesAt(ss, acts, rs, mid, i - 1);
        PacedAlong(ss, acts, rs, mid, i - 1);
        TallyStep(ss, acts, mid, i - 1, StagesLeft(ss[i - 1].objs[mid]), StagesLeft(ss[i].objs[mid]));
      } else {
        JustCreated(ss, acts, rs, mid, i - 1);
        NoPassesBefore(ss, acts, rs, mid, i - 1, EveryPass);
        NoPassesBefore(ss, acts, rs, mid, i - 1, StoredRefusal);
        NoPassesBefore(ss, acts, rs, mid, i - 1, HinderedPass);
      }
    }
  }

  /** In every run, up to and including the action that provisions it, a machine not being deleted gets
      at most one pass for each of the four stages behind it, two more for each refusal stored, and
      its hindered passes; and exactly that many if no pass was hindered. So with R refusals and H
      hindered passes it is provisioned by pass 4 + 2R + H, whatever other machines and the fleet do
      in between. */
  lemma {:induction false} ProvisioningIsBounded(ss: seq<System>, acts: seq<Action>, mid: Mid)
    requires IsRun(ss, acts) && mid in ss[|acts|].objs && !ss[|acts|].objs[mid].deleting
    requires forall i :: 0 <= i < |acts| && mid in ss[i].objs ==> !ss[i].objs[mid].status.provisioned
    ensures var n, left := |acts|, StagesLeft(ss[|acts|].objs[mid]);
      var passes, refusals := Tally(ss, acts, mid, n, EveryPass), Tally(ss, acts, mid, n, StoredRefusal);
      var hindered := Tally(ss, acts, mid, n, HinderedPass);
      && passes <= 4 - left + 2 * refusals + hindered
      && (hindered == 0 ==> passes == 4 - left + 2 * refusals)
      && (passes >= 4 + 2 * refusals + hindered ==> ss[n].objs[mid].status.provisioned)
  {
    var rs := RunIsBehaviour(ss, acts);
    PacedAlong(ss, acts, rs, mid, |acts|);
  }
}
