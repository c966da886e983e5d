/** Concrete runs in which natural expectations of the controller fail. */
module Runs {
  import opened Wrappers
  import opened Clock
  import opened Fleet
  import opened Connection
  import opened Machine
  import opened Transitions
  import opened Stages
  import opened System
  import Commands

  /*** Building a run ***/

  lemma RunExtends(ss: seq<System>, acts: seq<Action>, a: Action, s': System)
    requires IsRun(ss, acts) && Valid(ss[|acts|].fleet) && Next(ss[|acts|], a, s')
    ensures IsRun(ss + [s'], acts + [a])
  {
    var longer, actions := ss + [s'], acts + [a];
    forall i | 0 <= i < |actions| ensures TakesStep(longer, actions, i) {
      if i < |acts| {
        assert TakesStep(ss, acts, i);
      }
    }
  }

  /** The run one action longer, ending in s'. */
  lemma Then(ss: seq<System>, acts: seq<Action>, a: Action, s': System) returns (ss': seq<System>, acts': seq<Action>)
    requires IsRun(ss, acts) && Valid(ss[|acts|].fleet) && Next(ss[|acts|], a, s')
    ensures IsRun(ss', acts') && ss' == ss + [s'] && acts' == acts + [a]
    ensures |acts'| == |acts| + 1 && ss'[|acts'|] == s' && ss'[|acts|] == ss[|acts|]
  {
    RunExtends(ss, acts, a, s');
    ss', acts' := ss + [s'], acts + [a];
  }

  predicate EveryPatchKept(acts: seq<Action>) {
    forall a :: a in acts && a.PassOver? ==> a.world.patchKept
  }

  lemma PatchKeptToo(acts: seq<Action>, a: Action)
    requires EveryPatchKept(acts) && (a.PassOver? ==> a.world.patchKept)
    ensures EveryPatchKept(acts + [a])
  {
  }

  /*** One machine and one node ***/

  const NEW_NODE := Node("n", "g", Online, None, None, [])

  const NO_NODES := FleetState(map[], map[], map[])

  const START := System(map[], NO_NODES, 0, 0, map[], {}, {}, [])

  /** The node, while it is claimed for the machine. */
  function Mine(phase: NodePhase, heartbeat: Option<int>, commands: seq<Command>): Node {
    Node("n", "g", phase, Some("u"), heartbeat, commands)
  }

  /** A fleet whose only node is claimed for the machine. */
  function Taken(node: Node): FleetState {
    FleetState(map["n" := node], map["g" := []], map["u" := "n"])
  }

  /** The system of that machine and that node. */
  function Scene(o: Object, node: Node, trace: seq<Entry>): System {
    System(map[0 := o], Taken(node), 0, 1, map["u" := 0], {}, {}, trace)
  }

  predicate IsMine(node: Node) {
    node.id == "n" && node.group == "g" && node.claimKey == Some("u")
  }

  lemma SceneValid(node: Node)
    requires IsMine(node)
    ensures Valid(Taken(node)) && Taken(node).nodes["n"] == node && Taken(node).nodes.Keys == {"n"}
  {
  }

  lemma TakenAnew(node: Node, node': Node)
    ensures Taken(node).(nodes := Taken(node).nodes["n" := node']) == Taken(node')
  {
    assert Taken(node).nodes["n" := node'] == map["n" := node'];
  }

  /** Circumstances in which everything works, at time zero; a command gets the given ID. */
  function Fine(id: string): World {
    World(Open, true, Data("d"), Found(Link("u", Found("t"))), Some([Group("g", "g")]),
          Clean, Answered, false, 0, 0, 0, id, None, true)
  }

  /** The node enrols and the machine is created. */
  lemma Opening() returns (ss: seq<System>, acts: seq<Action>, s: System)
    ensures IsRun(ss, acts) && ss[|acts|] == s
    ensures |acts| == 2 && EveryPatchKept(acts)
    ensures s == System(map[0 := Fresh("u", "g")], EnrolNode(NO_NODES, NEW_NODE), 0, 1, map["u" := 0], {}, {}, [])
    ensures Valid(s.fleet) && s.fleet == FleetState(map["n" := NEW_NODE], map["g" := ["n"]], map[])
  {
    var s1 := START.(fleet := EnrolNode(NO_NODES, NEW_NODE));
    s := System(map[0 := Fresh("u", "g")], s1.fleet, 0, 1, map["u" := 0], {}, {}, []);
    assert IsRun([START], []) && EveryPatchKept([]);
    Enrolled(s1);
    PatchKeptToo([], FleetMoves(s1.fleet, 0));
    ss, acts := Then([START], [], FleetMoves(s1.fleet, 0), s1);
    Created(s1, s);
    PatchKeptToo(acts, CreateMachine("u", "g"));
    ss, acts := Then(ss, acts, CreateMachine("u", "g"), s);
  }

  lemma Enrolled(s: System)
    requires s == START.(fleet := EnrolNode(NO_NODES, NEW_NODE))
    ensures Valid(START.fleet) && Next(START, FleetMoves(s.fleet, 0), s) && Valid(s.fleet)
    ensures s.fleet == FleetState(map["n" := NEW_NODE], map["g" := ["n"]], map[])
  {
    EnrolEvolves(START, NEW_NODE);
    EnrolValid(NO_NODES, NEW_NODE);
    assert [] + ["n"] == ["n"];
  }

  lemma Created(s: System, s': System)
    requires Valid(s.fleet) && s == START.(fleet := s.fleet) && HeldBy(s.fleet, "u") == None
    requires s' == System(map[0 := Fresh("u", "g")], s.fleet, 0, 1, map["u" := 0], {}, {}, [])
    ensures Next(s, CreateMachine("u", "g"), s')
  {
    assert s'.objs == s.objs[0 := Fresh("u", "g")] && s'.issued == s.issued["u" := 0];
  }

  /** What is stored of the machine after a first pass that claims. */
  function AfterClaim(w: World): Object {
    var o := Fresh("u", "g").(finalizer := true);
    if !w.patchKept then Fresh("u", "g")
    else if w.fault.Clean? then Unready(o.(marks := NO_MARKS.(nodeId := "n", claimKey := "u")), NodeClaimed)
    else o
  }

  /** Circumstances of a first pass whose claim reaches the fleet. */
  predicate Claims(w: World) {
    w == Fine("c").(fault := w.fault, patchKept := w.patchKept) && !w.fault.RequestLost?
  }

  lemma FirstClaim(f: FleetState, w: World)
    requires f == FleetState(map["n" := NEW_NODE], map["g" := ["n"]], map[]) && Valid(f) && Claims(w)
    ensures var r := Reconcile(Fresh("u", "g"), f, w);
      && r.fleet == Taken(Mine(Online, None, [])) && r.deed == Claimed("n", "u") && !Gone(r.obj)
      && (w.patchKept ==> r.obj == AfterClaim(w))
  {
    var groups := w.groups.value;
    assert groups[0].id == "g" && ResolveGroup(groups, "g") == Ok("g");
    OpenGate(Fresh("u", "g"), f, w);
    ClaimedFleet(f);
  }

  lemma ClaimedFleet(f: FleetState)
    requires f == FleetState(map["n" := NEW_NODE], map["g" := ["n"]], map[]) && Valid(f)
    ensures Claim(f, "g", "u") == (Taken(Mine(Online, None, [])), Ok(Mine(Online, None, [])))
  {
    var f' := Claim(f, "g", "u").0;
    assert PoolOf(f, "g") == ["n"];
    assert f'.nodes == map["n" := Mine(Online, None, [])];
    assert f'.pool == map["g" := []];
    assert f'.byClaim == map["u" := "n"];
  }

  /** The run up to and including a first pass. */
  lemma ClaimingRun(w: World) returns (ss: seq<System>, acts: seq<Action>, s: System)
    requires Claims(w)
    ensures IsRun(ss, acts) && ss[|acts|] == s
    ensures |acts| == 3 && (w.patchKept ==> EveryPatchKept(acts))
    ensures s == Scene(AfterClaim(w), Mine(Online, None, []), [Entry(0, Claimed("n", "u"))])
  {
    var s0: System;
    ss, acts, s0 := Opening();
    FirstClaim(s0.fleet, w);
    var r := Reconcile(Fresh("u", "g"), s0.fleet, w);
    s := Scene(AfterClaim(w), Mine(Online, None, []), [Entry(0, Claimed("n", "u"))]);
    assert s.objs == Written(s0.objs, 0, r.obj, w.patchKept);
    if w.patchKept { PatchKeptToo(acts, PassOver(0, w)); }
    ss, acts := Then(ss, acts, PassOver(0, w), s);
  }

  /*** A claim can be left behind ***/

  /** A claiming pass loses its patch, and the machine is deleted: it vanishes at once, as it has no
      finalizer yet, and its node stays claimed with no machine left. */
  lemma ClaimLeftBehind() returns (ss: seq<System>, acts: seq<Action>)
    ensures IsRun(ss, acts)
    ensures ss[|acts|].objs == map[] && HeldBy(ss[|acts|].fleet, "u") == Some("n")
  {
    var w, s := Fine("c").(patchKept := false), START;
    ss, acts, s := ClaimingRun(w);
    SceneValid(Mine(Online, None, []));
    var s' := s.(objs := map[]);
    assert s.objs - {0} == map[];
    ss, acts := Then(ss, acts, RequestDelete(0), s');
  }

  /** The same with every patch kept: the claiming pass loses only its reply, and stores the
      finalizer but no node; so the delete pass finds nothing to release. */
  lemma ClaimLeftBehindThoughPatched() returns (ss: seq<System>, acts: seq<Action>)
    ensures IsRun(ss, acts) && EveryPatchKept(acts)
    ensures ss[|acts|].objs == map[] && HeldBy(ss[|acts|].fleet, "u") == Some("n")
  {
    var w, s := Fine("c").(fault := ReplyLost), START;
    ss, acts, s := ClaimingRun(w);
    var node, o := Mine(Online, None, []), AfterClaim(w).(deleting := true);
    var tr := s.trace;
    SceneValid(node);
    DeleteRequested(AfterClaim(w), node, tr);
    PatchKeptToo(acts, RequestDelete(0));
    ss, acts := Then(ss, acts, RequestDelete(0), Scene(o, node, tr));
    EmptyDelete(o, node, tr);
    PatchKeptToo(acts, PassOver(0, Fine("c")));
    ss, acts := Then(ss, acts, PassOver(0, Fine("c")), Emptied(node, tr + [Entry(0, Idle)]));
  }

  lemma DeleteRequested(o: Object, node: Node, tr: seq<Entry>)
    requires o.finalizer && Valid(Taken(node))
    ensures Next(Scene(o, node, tr), RequestDelete(0), Scene(o.(deleting := true), node, tr))
  {
    assert Scene(o, node, tr).objs[0 := o.(deleting := true)] == map[0 := o.(deleting := true)];
  }

  /** The scene after the machine has gone. */
  function Emptied(node: Node, tr: seq<Entry>): System {
    System(map[], Taken(node), 0, 1, map["u" := 0], {}, {}, tr)
  }

  lemma EmptyDelete(o: Object, node: Node, tr: seq<Entry>)
    requires o.deleting && o.marks == NO_MARKS && node == Mine(Online, None, []) && Valid(Taken(node))
    ensures Next(Scene(o, node, tr), PassOver(0, Fine("c")), Emptied(node, tr + [Entry(0, Idle)]))
  {
    NothingToRelease(o, node);
    assert Scene(o, node, tr).objs - {0} == map[];
  }

  lemma NothingToRelease(o: Object, node: Node)
    requires o.deleting && o.marks == NO_MARKS && IsMine(node) && Valid(Taken(node))
    ensures Reconcile(o, Taken(node), Fine("c")) == Pass(o.(finalizer := false), Taken(node), DONE, Idle)
  {
    OpenGate(o, Taken(node), Fine("c"));
  }

  /*** A machine's whole life ***/

  const APPLY := Command("c1", ApplyCloudConfig, "d", CommandPending, "", None)
  const APPLIED := APPLY.(phase := Completed)
  const REBOOT := Command("c2", RebootNode, "", CommandPending, "", None)
  const REFUSED := REBOOT.(phase := Failed, result := "not allowed")

  const CLAIMED_MARKS := NO_MARKS.(nodeId := "n", claimKey := "u")
  const APPLIED_MARKS := CLAIMED_MARKS.(applied := true, applyCommand := "c1")
  const REBOOTED_MARKS := APPLIED_MARKS.(rebootAt := Sec(0), rebootCommand := "c2")

  /** The machine with these markers and this status. */
  function TheMachine(m: Marks, providerID: Option<string>, status: Status): Object {
    Object("u", "g", false, true, m, providerID, status)
  }

  /** The status of a machine failed because its node is missing. */
  const GONE := Status(false, ReadyFalse(NodeMissing, ""), Some(NodeMissing))

  function Waiting(reason: Reason): Status {
    NotReadyStatus(NEW_STATUS, reason, "")
  }

  const PROVIDER := Some(PROVIDER_ID_PREFIX + "n")

  /** A pass that works is a step from scene to scene. */
  lemma ScenePass(o: Object, node: Node, tr: seq<Entry>, w: World, r: Pass, node': Node)
    requires IsMine(node) && Valid(Taken(node)) && r == Reconcile(o, Taken(node), w)
    requires w == Fine(w.newId).(nodeRead := w.nodeRead) && FreshId(Taken(node), o.marks.nodeId, w.newId)
    requires r.fleet == Taken(node') && !r.deed.Released? && !Gone(r.obj)
    ensures Next(Scene(o, node, tr), PassOver(0, w), Scene(r.obj, node', tr + [Entry(0, r.deed)]))
  {
    var s, s' := Scene(o, node, tr), Scene(r.obj, node', tr + [Entry(0, r.deed)]);
    assert s'.objs == Written(s.objs, 0, r.obj, true);
  }

  /** A report of the node is a step from scene to scene. */
  lemma SceneReport(o: Object, node: Node, tr: seq<Entry>, node': Node)
    requires IsMine(node)
    requires node' == node.(phase := node'.phase, heartbeat := node'.heartbeat, commands := node'.commands)
    requires HistoryKept(node.commands, node'.commands)
    requires Commands.DistinctIds(node.commands) && Commands.DistinctIds(node'.commands)
    ensures Valid(Taken(node)) && Next(Scene(o, node, tr), FleetMoves(Taken(node'), 0), Scene(o, node', tr))
  {
    SceneValid(node);
    ReportEvolves(Scene(o, node, tr), "n", node');
    TakenAnew(node, node');
  }

  /** The apply pass. */
  lemma Applies(status: Status)
    ensures var node := Mine(Online, None, []);
      && Valid(Taken(node))
      && Reconcile(TheMachine(CLAIMED_MARKS, None, status), Taken(node), Fine("c1"))
         == Pass(TheMachine(APPLIED_MARKS, None, NotReadyStatus(status, ApplyingCloudConfig, "")),
                 Taken(Mine(Online, None, [APPLY])), Outcome(WAIT_FOR_REJOIN, false), ApplyQueued("n", "d", "c1", 0))
  {
    var node := Mine(Online, None, []);
    SceneValid(node);
    OpenGate(TheMachine(CLAIMED_MARKS, None, status), Taken(node), Fine("c1"));
    assert node.commands + [APPLY] == [APPLY];
    TakenAnew(node, Mine(Online, None, [APPLY]));
  }

  /** The reboot pass. */
  lemma Reboots(status: Status)
    ensures var node := Mine(Online, None, [APPLIED]);
      && Valid(Taken(node))
      && Reconcile(TheMachine(APPLIED_MARKS, None, status), Taken(node), Fine("c2"))
         == Pass(TheMachine(REBOOTED_MARKS, None, NotReadyStatus(status, Rebooting, "")),
                 Taken(Mine(Online, None, [APPLIED, REBOOT])), Outcome(WAIT_FOR_REJOIN, false),
                 RebootQueued("n", "c1", "c2", 0))
  {
    var node := Mine(Online, None, [APPLIED]);
    SceneValid(node);
    var o := TheMachine(APPLIED_MARKS, None, status);
    OpenGate(o, Taken(node), Fine("c2"));
    Commands.OnlyTheRecordedCommand(node.commands, node.commands, APPLIED, ApplyCloudConfig);
    assert CommandVerdict(Taken(node), Fine("c2"), "n", "c1", ApplyCloudConfig) == Commands.Succeeded;
    assert node.commands + [REBOOT] == [APPLIED, REBOOT];
    TakenAnew(node, Mine(Online, None, [APPLIED, REBOOT]));
  }

  /** The pass that looks at the node, when the node's reply is read or comes back as 404. */
  lemma Looks(providerID: Option<string>, status: Status, nodeRead: NodeRead)
    requires !nodeRead.NodeUnread?
    ensures var node := Mine(Online, Some(1), [APPLIED, REFUSED]);
      var w := Fine("c3").(nodeRead := nodeRead);
      && Valid(Taken(node))
      && Reconcile(TheMachine(REBOOTED_MARKS, providerID, status), Taken(node), w)
         == if nodeRead.Answered? then
              Pass(TheMachine(REBOOTED_MARKS, PROVIDER, Status(true, ReadyTrue, status.failure)),
                   Taken(node), DONE, Rejoined("n", 1))
            else
              Pass(TheMachine(REBOOTED_MARKS, providerID, GONE),
                   Taken(node), DONE, Idle)
  {
    var node := Mine(Online, Some(1), [APPLIED, REFUSED]);
    SceneValid(node);
    OpenGate(TheMachine(REBOOTED_MARKS, providerID, status), Taken(node), Fine("c3").(nodeRead := nodeRead));
  }

  /** A command whose phase and result alone have changed is still in the history. */
  lemma Progressed(cmds: seq<Command>, cmds': seq<Command>)
    requires |cmds'| == |cmds|
    requires forall i :: 0 <= i < |cmds| ==>
      cmds'[i] == cmds[i].(phase := cmds'[i].phase, result := cmds'[i].result)
    ensures HistoryKept(cmds, cmds')
  {
    forall i | 0 <= i < |cmds| ensures Carries(cmds', cmds[i].id, cmds[i].kind, cmds[i].config) {
      assert cmds'[i].id == cmds[i].id;
    }
  }

  /** The run up to the point where the node has completed the apply. */
  lemma AppliedRun() returns (ss: seq<System>, acts: seq<Action>, status: Status, tr: seq<Entry>)
    ensures IsRun(ss, acts) && |acts| == 5
    ensures status == Waiting(ApplyingCloudConfig)
    ensures ss[|acts|] == Scene(TheMachine(APPLIED_MARKS, None, status), Mine(Online, None, [APPLIED]), tr)
  {
    var s: System;
    ss, acts, s := ClaimingRun(Fine("c"));
    var node, node', o := Mine(Online, None, []), Mine(Online, None, [APPLY]), AfterClaim(Fine("c"));
    Applies(o.status);
    var r := Reconcile(o, Taken(node), Fine("c1"));
    ScenePass(o, node, s.trace, Fine("c1"), r, node');
    SceneValid(node');
    tr := s.trace + [Entry(0, r.deed)];
    status := r.obj.status;
    ss, acts := Then(ss, acts, PassOver(0, Fine("c1")), Scene(r.obj, node', tr));
    Progressed([APPLY], [APPLIED]);
    SceneReport(r.obj, node', tr, Mine(Online, None, [APPLIED]));
    ss, acts := Then(ss, acts, FleetMoves(Taken(Mine(Online, None, [APPLIED])), 0),
                     Scene(r.obj, Mine(Online, None, [APPLIED]), tr));
  }

  /** The run up to the point where the machine has queued its reboot, and the node has refused it
      and then sent one heartbeat. */
  lemma RefusedRun() returns (ss: seq<System>, acts: seq<Action>, status: Status, tr: seq<Entry>)
    ensures IsRun(ss, acts) && |acts| == 7
    ensures status == Waiting(Rebooting)
    ensures ss[|acts|] == Scene(TheMachine(REBOOTED_MARKS, None, status), Mine(Online, Some(1), [APPLIED, REFUSED]), tr)
  {
    ss, acts, status, tr := AppliedRun();
    var node, node', o :=
      Mine(Online, None, [APPLIED]), Mine(Online, None, [APPLIED, REBOOT]), TheMachine(APPLIED_MARKS, None, status);
    Reboots(status);
    var r := Reconcile(o, Taken(node), Fine("c2"));
    ScenePass(o, node, tr, Fine("c2"), r, node');
    SceneValid(node');
    tr := tr + [Entry(0, r.deed)];
    status := r.obj.status;
    ss, acts := Then(ss, acts, PassOver(0, Fine("c2")), Scene(r.obj, node', tr));
    Progressed([APPLIED, REBOOT], [APPLIED, REFUSED]);
    SceneReport(r.obj, node', tr, Mine(Online, Some(1), [APPLIED, REFUSED]));
    ss, acts := Then(ss, acts, FleetMoves(Taken(Mine(Online, Some(1), [APPLIED, REFUSED])), 0),
                     Scene(r.obj, Mine(Online, Some(1), [APPLIED, REFUSED]), tr));
  }

  /** A pass that looks at the node prolongs such a run. */
  lemma LookAgain(ss: seq<System>, acts: seq<Action>, o: Object, tr: seq<Entry>, nodeRead: NodeRead)
    returns (ss': seq<System>, acts': seq<Action>, o': Object, tr': seq<Entry>)
    requires IsRun(ss, acts) && !nodeRead.NodeUnread? && o == TheMachine(REBOOTED_MARKS, o.providerID, o.status)
    requires ss[|acts|] == Scene(o, Mine(Online, Some(1), [APPLIED, REFUSED]), tr)
    ensures IsRun(ss', acts') && |acts'| == |acts| + 1 && ss'[..|acts'|] == ss
    ensures ss'[|acts'|] == Scene(o', Mine(Online, Some(1), [APPLIED, REFUSED]), tr')
    ensures o' == if nodeRead.Answered? then
                    TheMachine(REBOOTED_MARKS, PROVIDER, Status(true, ReadyTrue, o.status.failure))
                  else
                    TheMachine(REBOOTED_MARKS, o.providerID, GONE)
  {
    var node, w := Mine(Online, Some(1), [APPLIED, REFUSED]), Fine("c3").(nodeRead := nodeRead);
    Looks(o.providerID, o.status, nodeRead);
    var r := Reconcile(o, Taken(node), w);
    ScenePass(o, node, tr, w, r, node);
    o', tr' := r.obj, tr + [Entry(0, r.deed)];
    ss', acts' := Then(ss, acts, PassOver(0, w), Scene(o', node, tr'));
  }

  /** In this run the node refuses the reboot, never reboots, sends one more heartbeat, and its
      machine is provisioned (state 8). One 404 for the node then withdraws that and fails the machine
      as NodeMissing (state 9); and the next pass, which finds the node again, makes it Ready, its
      failure still recorded (state 10). */
  lemma RefusedMissingReady() returns (ss: seq<System>, acts: seq<Action>)
    ensures IsRun(ss, acts) && |acts| == 10 && forall i :: 7 <= i <= 10 ==> 0 in ss[i].objs
    ensures var o := ss[7].objs[0];
      && o.marks.nodeId in ss[7].fleet.nodes
      && RebootVerdict(ss[7].fleet, Fine("c3"), o.marks, ss[7].fleet.nodes[o.marks.nodeId]).Refused?
    ensures ss[8].objs[0].status == Status(true, ReadyTrue, None)
    ensures ss[9].objs[0].status == GONE
    ensures ss[10].objs[0].status == Status(true, ReadyTrue, Some(NodeMissing))
  {
    var status, tr, ss7, acts7 := NEW_STATUS, [], [], [];
    ss7, acts7, status, tr := RefusedRun();
    RefusalShows();
    ss, acts := ReadyMissingReady(ss7, acts7, TheMachine(REBOOTED_MARKS, None, status), tr);
    assert ss[..8][7] == ss[7];
  }

  /** Three looks at the node, the second answered with a 404. */
  lemma ReadyMissingReady(ss: seq<System>, acts: seq<Action>, o: Object, tr: seq<Entry>)
    returns (ss': seq<System>, acts': seq<Action>)
    requires IsRun(ss, acts) && o == TheMachine(REBOOTED_MARKS, o.providerID, o.status)
    requires ss[|acts|] == Scene(o, Mine(Online, Some(1), [APPLIED, REFUSED]), tr)
    ensures IsRun(ss', acts') && |acts'| == |acts| + 3 && ss'[..|ss|] == ss
    ensures 0 in ss'[|ss|].objs && ss'[|ss|].objs[0].status == Status(true, ReadyTrue, o.status.failure)
    ensures 0 in ss'[|ss| + 1].objs && ss'[|ss| + 1].objs[0].status == GONE
    ensures 0 in ss'[|ss| + 2].objs && ss'[|ss| + 2].objs[0].status == Status(true, ReadyTrue, Some(NodeMissing))
  {
    var ss1, acts1, o1, tr1 := LookAgain(ss, acts, o, tr, Answered);
    var ss2, acts2, o2, tr2 := LookAgain(ss1, acts1, o1, tr1, AnsweredMissing);
    var ss3, acts3, o3, tr3 := LookAgain(ss2, acts2, o2, tr2, Answered);
    assert ss3[..|ss1|] == ss2[..|ss1|] == ss1;
    assert ss3[..|ss|] == ss1[..|ss|] == ss;
    assert ss3[|ss|] == ss1[|ss|] && ss3[|ss| + 1] == ss2[|ss| + 1];
    ss', acts' := ss3, acts3;
  }

  lemma RefusalShows()
    ensures var node := Mine(Online, Some(1), [APPLIED, REFUSED]);
      RebootVerdict(Taken(node), Fine("c3"), REBOOTED_MARKS, node).Refused?
  {
    var cmds := [APPLIED, REFUSED];
    assert cmds[1] == REFUSED;
    Commands.OnlyTheRecordedCommand(cmds, cmds, REFUSED, RebootNode);
  }
}
