/** The whole system: any number of machines sharing one fleet, stepped by controller passes with
    kept or lost patches, moves, deletions, the fleet's own life and the clock. */
module System {
  import opened Wrappers
  import opened Fleet
  import opened Machine
  import opened Transitions
  import opened Stages
  import Commands

  /** A machine's identity in the model. It outlives UID changes and is never reused. */
  type Mid = nat

  datatype Entry = Entry(mid: Mid, deed: Deed)

  /** `issued` remembers which machine each UID was given to; `retired` the removed nodes;
      `released` the machines whose release has reached the fleet; `trace` every pass's event. */
  datatype System = System(objs: map<Mid, Object>, fleet: FleetState, clock: int,
                           born: nat, issued: map<Uid, Mid>, retired: set<NodeId>,
                           released: set<Mid>, trace: seq<Entry>)

  datatype Action =
    | PassOver(mid: Mid, world: World)
    | CreateMachine(uid: Uid, group: string)
    | RequestDelete(mid: Mid)
    | Move(mid: Mid, uid: Uid, statusKept: bool)
    | EditGroup(mid: Mid, group: string)
    | FleetMoves(next: FleetState, clock: int)
    | NodeRemoved(node: NodeId)

  function LastDeed(s: System): Deed {
    if s.trace == [] then Idle else s.trace[|s.trace| - 1].deed
  }

  /*** The fleet's own life ***/

  ghost predicate Carries(cmds: seq<Command>, id: string, kind: CommandKind, config: string) {
    exists i :: 0 <= i < |cmds| && cmds[i].id == id && cmds[i].kind == kind && cmds[i].config == config
  }

  /** No command is ever pruned, though its phase and result change and others appear anywhere. */
  ghost predicate HistoryKept(cmds: seq<Command>, cmds': seq<Command>) {
    forall i :: 0 <= i < |cmds| ==> Carries(cmds', cmds[i].id, cmds[i].kind, cmds[i].config)
  }

  ghost predicate Histories(f: FleetState) {
    forall n :: n in f.nodes ==> Commands.DistinctIds(f.nodes[n].commands)
  }

  /** Nodes enrol, report, heartbeat, run commands and reorder in their queues; other clients queue
      commands, claim and release. Only the claims of UIDs issued here are left alone. */
  ghost predicate FleetEvolves(s: System, f': FleetState) {
    && Valid(f') && Histories(f')
    && s.fleet.nodes.Keys <= f'.nodes.Keys
    && f'.nodes.Keys !! s.retired
    && (forall k :: k in s.issued ==> HeldBy(f', k) == HeldBy(s.fleet, k))
    && (forall n :: n in s.fleet.nodes ==> HistoryKept(s.fleet.nodes[n].commands, f'.nodes[n].commands))
  }

  /** An ID the server may give a new command of node n. */
  ghost predicate FreshId(f: FleetState, n: NodeId, id: string) {
    && id != ""
    && (n in f.nodes ==> forall i :: 0 <= i < |f.nodes[n].commands| ==> f.nodes[n].commands[i].id != id)
  }

  ghost predicate FreshUid(s: System, uid: Uid) {
    uid != "" && uid !in s.issued && HeldBy(s.fleet, uid) == None
  }

  /** Enrolling a new unclaimed node is one of the fleet's own moves. */
  lemma EnrolEvolves(s: System, node: Node)
    requires Valid(s.fleet) && Histories(s.fleet) && s.retired !! s.fleet.nodes.Keys
    requires node.id != "" && node.id !in s.fleet.nodes && node.id !in s.retired
    requires node.claimKey == None && Commands.DistinctIds(node.commands)
    ensures FleetEvolves(s, EnrolNode(s.fleet, node))
  {
    EnrolValid(s.fleet, node);
  }

  /** So is any report from a node: its phase, its heartbeat, and its commands' progress. */
  lemma ReportEvolves(s: System, n: NodeId, node: Node)
    requires Valid(s.fleet) && Histories(s.fleet) && s.retired !! s.fleet.nodes.Keys && n in s.fleet.nodes
    requires node == s.fleet.nodes[n].(phase := node.phase, heartbeat := node.heartbeat, commands := node.commands)
    requires HistoryKept(s.fleet.nodes[n].commands, node.commands) && Commands.DistinctIds(node.commands)
    ensures FleetEvolves(s, s.fleet.(nodes := s.fleet.nodes[n := node]))
  {
    var f' := s.fleet.(nodes := s.fleet.nodes[n := node]);
    ReportValid(s.fleet, n, node);
    forall m | m in s.fleet.nodes ensures HistoryKept(s.fleet.nodes[m].commands, f'.nodes[m].commands) {
      if m != n { HistoryItself(s.fleet.nodes[m].commands); }
    }
  }

  lemma HistoryItself(cmds: seq<Command>)
    ensures HistoryKept(cmds, cmds)
  {
    forall i | 0 <= i < |cmds| ensures Carries(cmds, cmds[i].id, cmds[i].kind, cmds[i].config) {
    }
  }

  /*** Steps ***/

  /** One pass, atomically: its clock readings are in order, its effects on the fleet happen, and
      the object is written back if the patch is kept. */
  ghost predicate PassStep(s: System, mid: Mid, w: World, r: Pass, s': System) {
    && mid in s.objs
    && s.clock <= w.now <= w.queuedAt <= w.later
    && FreshId(s.fleet, s.objs[mid].marks.nodeId, w.newId)
    && s' == s.(objs := Written(s.objs, mid, r.obj, w.patchKept),
                fleet := r.fleet,
                clock := w.later,
                released := if r.deed.Released? then s.released + {mid} else s.released,
                trace := s.trace + [Entry(mid, r.deed)])
  }

  /** Everything that happens to the system other than a controller pass. */
  ghost predicate OtherStep(s: System, a: Action, s': System)
    requires !a.PassOver?
  {
    match a
    case CreateMachine(uid, group) =>
      && FreshUid(s, uid)
      && s' == s.(objs := s.objs[s.born := Fresh(uid, group)],
                  issued := s.issued[uid := s.born], born := s.born + 1)
    case RequestDelete(mid) =>
      && mid in s.objs
      && s' == s.(objs := if s.objs[mid].finalizer then s.objs[mid := s.objs[mid].(deleting := true)]
                          else s.objs - {mid})
    case Move(mid, uid, statusKept) =>
      && mid in s.objs && !s.objs[mid].deleting && FreshUid(s, uid)
      && s' == s.(objs := s.objs[mid := s.objs[mid].(uid := uid,
                                                     status := if statusKept then s.objs[mid].status else NEW_STATUS)],
                  issued := s.issued[uid := mid])
    case EditGroup(mid, group) =>
      && mid in s.objs
      && s' == s.(objs := s.objs[mid := s.objs[mid].(group := group)])
    case FleetMoves(f', clock') =>
      && FleetEvolves(s, f') && s.clock <= clock'
      && s' == s.(fleet := f', clock := clock')
    case NodeRemoved(n) =>
      && n in s.fleet.nodes
      && s' == s.(fleet := RemoveNode(s.fleet, n), retired := s.retired + {n})
  }

  ghost predicate Next(s: System, a: Action, s': System)
    requires Valid(s.fleet)
  {
    if a.PassOver? then
      a.mid in s.objs && PassStep(s, a.mid, a.world, Reconcile(s.objs[a.mid], s.fleet, a.world), s')
    else
      OtherStep(s, a, s')
  }

  /** Nothing has been created yet; the fleet may already be in use by others. */
  ghost predicate Init(s: System) {
    && s.objs == map[] && s.born == 0 && s.issued == map[] && s.released == {} && s.trace == []
    && Valid(s.fleet) && Histories(s.fleet) && s.retired !! s.fleet.nodes.Keys
  }

  /*** The system invariant ***/

  /** Two machines that have not released never record the same node. */
  ghost predicate Exclusive(s: System) {
    forall i, j | i in s.objs && j in s.objs && i != j && i !in s.released && j !in s.released ::
      s.objs[i].marks.nodeId != "" ==> s.objs[i].marks.nodeId != s.objs[j].marks.nodeId
  }

  ghost predicate MachineOk(s: System, mid: Mid)
    requires mid in s.objs
  {
    var o := s.objs[mid];
    && mid < s.born
    && o.uid in s.issued && s.issued[o.uid] == mid
    && (o.marks.claimKey != "" ==> o.marks.claimKey in s.issued && s.issued[o.marks.claimKey] == mid)
    && Chain(o) && !Gone(o)
    && (mid in s.released ==> o.deleting)
    && (o.marks.nodeId != "" ==>
          HeldBy(s.fleet, o.marks.claimKey)
            == if mid in s.released || o.marks.nodeId in s.retired then None else Some(o.marks.nodeId))
  }

  ghost predicate Inv(s: System) {
    && Valid(s.fleet) && Histories(s.fleet)
    && s.retired !! s.fleet.nodes.Keys
    && "" !in s.issued
    && (forall k :: k in s.issued ==> s.issued[k] < s.born)
    && (forall mid :: mid in s.released ==> mid < s.born)
    && (forall mid :: mid in s.objs ==> MachineOk(s, mid))
    && Exclusive(s)
  }

  lemma HoldsIsHeldBy(f: FleetState, n: NodeId, k: Key)
    requires Valid(f)
    ensures Holds(f, n, k) <==> HeldBy(f, k) == Some(n)
  {
  }

  lemma InitInv(s: System)
    requires Init(s)
    ensures Inv(s)
  {
  }

  /** The machine's claim key is one of its own UIDs. */
  lemma OwnKey(s: System, mid: Mid)
    requires Inv(s) && mid in s.objs
    ensures ClaimKeyFor(s.objs[mid]) in s.issued && s.issued[ClaimKeyFor(s.objs[mid])] == mid
    ensures s.objs[mid].marks.nodeId != "" ==> ClaimKeyFor(s.objs[mid]) == s.objs[mid].marks.claimKey
  {
    assert MachineOk(s, mid);
  }

  /** The pass of `mid` leaves every other machine as it should be. */
  lemma BystanderOk(s: System, mid: Mid, w: World, r: Pass, s': System, other: Mid)
    requires Inv(s) && PassStep(s, mid, w, r, s') && Shape(s.objs[mid], s.fleet, w, r)
    requires other in s.objs && other != mid
    ensures other in s'.objs && s'.objs[other] == s.objs[other] && MachineOk(s', other)
  {
    assert MachineOk(s, other);
    OwnKey(s, mid);
    OwnKey(s, other);
    assert OtherClaimsKept(s.fleet, r.fleet, ClaimKeyFor(s.objs[mid]));
  }

  /** The pass keeps the invariant for the object it leaves in memory, whether or not it is written. */
  lemma WorkedOnOk(s: System, mid: Mid, w: World, r: Pass, s': System)
    requires Inv(s) && PassStep(s, mid, w, r, s') && Shape(s.objs[mid], s.fleet, w, r)
    requires mid in s'.objs
    ensures MachineOk(s', mid)
  {
    var o, o' := s.objs[mid], s'.objs[mid];
    assert MachineOk(s, mid);
    OwnKey(s, mid);
    ChainKept(o, s.fleet, w, r);
    ClaimRecordKept(o, s.fleet, w, r);
    assert o' == o || o' == r.obj;
    if o'.marks.nodeId != "" && mid !in s'.released {
      match r.deed {
        case Claimed(n, k) => assert ClaimEffect(s.fleet, r.fleet, n, k);
        case ApplyQueued(n, _, _, _) =>
        case RebootQueued(n, _, _, _) =>
        case Idle =>
        case ApplyRefused(_, _) =>
        case RebootRefused(_, _) =>
        case Rejoined(_, _) =>
        case Released(_, _, _) => assert false;
      }
    }
  }

  lemma ReportsKeepHistories(f: FleetState, f': FleetState)
    requires Histories(f) && SameReports(f, f')
    ensures Histories(f')
  {
  }

  lemma QueueKeepsHistories(f: FleetState, f': FleetState, n: NodeId, c: Command)
    requires Histories(f) && QueueEffect(f, f', n, c) && FreshId(f, n, c.id)
    ensures Histories(f') && f'.nodes.Keys == f.nodes.Keys
  {
  }

  lemma HistoriesKept(s: System, mid: Mid, w: World, r: Pass, s': System)
    requires Inv(s) && PassStep(s, mid, w, r, s') && Shape(s.objs[mid], s.fleet, w, r)
    ensures Histories(s'.fleet) && s'.fleet.nodes.Keys == s.fleet.nodes.Keys
  {
    if r.deed.Claimed? || r.deed.Released? {
      ReportsKeepHistories(s.fleet, r.fleet);
    } else if r.deed.ApplyQueued? {
      QueueKeepsHistories(s.fleet, r.fleet, r.deed.node, ApplyCommandOf(w, r.deed.secret));
    } else if r.deed.RebootQueued? {
      QueueKeepsHistories(s.fleet, r.fleet, r.deed.node, RebootCommandOf(w));
    }
  }

  /** A node freshly recorded by `mid` is recorded by no other machine. */
  lemma ClaimedIsUnrecorded(s: System, mid: Mid, f': FleetState, n: NodeId, k: Key, other: Mid)
    requires Inv(s) && mid in s.objs && other in s.objs && other != mid && other !in s.released
    requires k == ClaimKeyFor(s.objs[mid]) && ClaimEffect(s.fleet, f', n, k)
    ensures s.objs[other].marks.nodeId != n
  {
    assert MachineOk(s, other);
    OwnKey(s, mid);
    OwnKey(s, other);
    var m := s.objs[other].marks;
    assert n in s.fleet.nodes && n !in s.retired;
    if m.nodeId != "" {
      assert k != m.claimKey;
      HoldsIsHeldBy(s.fleet, m.nodeId, m.claimKey);
      HoldsIsHeldBy(s.fleet, n, k);
    }
  }

  lemma ExclusiveKept(s: System, mid: Mid, w: World, r: Pass, s': System)
    requires Inv(s) && PassStep(s, mid, w, r, s') && Shape(s.objs[mid], s.fleet, w, r)
    ensures Exclusive(s')
  {
    assert MachineOk(s, mid);
    ClaimRecordKept(s.objs[mid], s.fleet, w, r);
    forall i | i in s.objs && i != mid && i !in s.released && mid in s'.objs && mid !in s'.released
      && s'.objs[mid].marks.nodeId != ""
      ensures s.objs[i].marks.nodeId != s'.objs[mid].marks.nodeId
    {
      if s.objs[mid].marks.nodeId == "" {
        assert r.deed.Claimed?;
        ClaimedIsUnrecorded(s, mid, r.fleet, r.deed.node, r.deed.key, i);
      }
    }
  }

  lemma PassInv(s: System, mid: Mid, w: World, r: Pass, s': System)
    requires Inv(s) && PassStep(s, mid, w, r, s') && Shape(s.objs[mid], s.fleet, w, r)
    ensures Inv(s')
  {
    HistoriesKept(s, mid, w, r, s');
    ExclusiveKept(s, mid, w, r, s');
    forall i | i in s'.objs ensures MachineOk(s', i) {
      if i == mid {
        WorkedOnOk(s, mid, w, r, s');
      } else {
        BystanderOk(s, mid, w, r, s', i);
      }
    }
  }

  lemma EnvironmentInv(s: System, a: Action, s': System)
    requires Inv(s) && (a.FleetMoves? || a.NodeRemoved?) && OtherStep(s, a, s')
    ensures Inv(s')
  {
    if a.NodeRemoved? {
      RemoveNodeSound(s.fleet, a.node);
    }
    forall i | i in s'.objs ensures MachineOk(s', i) {
      assert MachineOk(s, i);
    }
  }

  /** Editing one live object, without touching its markers or the fleet. */
  lemma EditInv(s: System, s': System, mid: Mid)
    requires Inv(s) && mid in s.objs && mid in s'.objs
    requires s'.fleet == s.fleet && s'.retired == s.retired && s'.released == s.released && s'.born == s.born
    requires s'.objs == s.objs[mid := s'.objs[mid]] && s'.objs[mid].marks == s.objs[mid].marks
    requires forall k :: k in s.issued ==> k in s'.issued && s'.issued[k] == s.issued[k]
    requires "" !in s'.issued && forall k :: k in s'.issued ==> s'.issued[k] < s'.born
    requires MachineOk(s', mid)
    ensures Inv(s')
  {
    forall i | i in s'.objs ensures MachineOk(s', i) {
      if i != mid { assert MachineOk(s, i); }
    }
  }

  lemma CreateInv(s: System, uid: Uid, group: string, s': System)
    requires Inv(s) && OtherStep(s, CreateMachine(uid, group), s')
    ensures Inv(s')
  {
    FreshChain(uid, group);
    forall i | i in s'.objs ensures MachineOk(s', i) {
      if i in s.objs { assert MachineOk(s, i); }
    }
  }

  lemma DeleteInv(s: System, mid: Mid, s': System)
    requires Inv(s) && OtherStep(s, RequestDelete(mid), s')
    ensures Inv(s')
  {
    assert MachineOk(s, mid);
    if s.objs[mid].finalizer {
      EditInv(s, s', mid);
    } else {
      forall i | i in s'.objs ensures MachineOk(s', i) {
        assert MachineOk(s, i);
      }
    }
  }

  lemma MoveInv(s: System, mid: Mid, uid: Uid, statusKept: bool, s': System)
    requires Inv(s) && OtherStep(s, Move(mid, uid, statusKept), s')
    ensures Inv(s')
  {
    assert MachineOk(s, mid);
    assert MachineOk(s', mid);
    EditInv(s, s', mid);
  }

  lemma EditGroupInv(s: System, mid: Mid, group: string, s': System)
    requires Inv(s) && OtherStep(s, EditGroup(mid, group), s')
    ensures Inv(s')
  {
    assert MachineOk(s, mid);
    assert MachineOk(s', mid);
    EditInv(s, s', mid);
  }

  /** Every step keeps the invariant. */
  lemma NextInv(s: System, a: Action, s': System)
    requires Inv(s) && Next(s, a, s')
    ensures Inv(s')
  {
    match a {
      case PassOver(mid, w) =>
        assert MachineOk(s, mid);
        ReconcileShape(s.objs[mid], s.fleet, w);
        PassInv(s, mid, w, Reconcile(s.objs[mid], s.fleet, w), s');
      case FleetMoves(_, _) => EnvironmentInv(s, a, s');
      case NodeRemoved(_) => EnvironmentInv(s, a, s');
      case CreateMachine(uid, group) => CreateInv(s, uid, group, s');
      case RequestDelete(mid) => DeleteInv(s, mid, s');
      case Move(mid, uid, statusKept) => MoveInv(s, mid, uid, statusKept, s');
      case EditGroup(mid, group) => EditGroupInv(s, mid, group, s');
    }
  }

  /*** Runs ***/

  /** The i-th action of a run leads from its i-th state to the next. */
  ghost predicate TakesStep(ss: seq<System>, acts: seq<Action>, i: nat)
    requires |ss| == |acts| + 1 && i < |acts|
  {
    Valid(ss[i].fleet) && Next(ss[i], acts[i], ss[i + 1])
  }

  /** A run: it starts with nothing created, and each state follows from the one before by its
      action. */
  ghost predicate IsRun(ss: seq<System>, acts: seq<Action>) {
    && |ss| == |acts| + 1
    && Init(ss[0])
    && forall i :: 0 <= i < |acts| ==> TakesStep(ss, acts, i)
  }

  /** A step as the table of transitions describes it: r is what the pass did, if it is one. */
  ghost predicate Step(s: System, a: Action, r: Pass, s': System) {
    && Inv(s) && Inv(s')
    && if a.PassOver? then
         a.mid in s.objs && PassStep(s, a.mid, a.world, r, s') && Shape(s.objs[a.mid], s.fleet, a.world, r)
       else OtherStep(s, a, s')
  }

  /** A run in those terms; the results about runs are proved of these. */
  ghost predicate Behaviour(ss: seq<System>, acts: seq<Action>, rs: seq<Pass>) {
    && |ss| == |acts| + 1 == |rs| + 1
    && Init(ss[0])
    && forall i {:trigger rs[i]} :: 0 <= i < |acts| ==> Step(ss[i], acts[i], rs[i], ss[i + 1])
  }

  lemma NextStep(s: System, a: Action, s': System) returns (r: Pass)
    requires Inv(s) && Next(s, a, s')
    ensures Step(s, a, r, s')
    ensures a.PassOver? ==> a.mid in s.objs && r == Reconcile(s.objs[a.mid], s.fleet, a.world)
  {
    NextInv(s, a, s');
    if a.PassOver? {
      assert MachineOk(s, a.mid);
      ReconcileShape(s.objs[a.mid], s.fleet, a.world);
      r := Reconcile(s.objs[a.mid], s.fleet, a.world);
    } else {
      r :| true;
    }
  }

  lemma RunStep(ss: seq<System>, acts: seq<Action>, i: nat) returns (r: Pass)
    requires IsRun(ss, acts) && i < |acts| && Inv(ss[i])
    ensures Step(ss[i], acts[i], r, ss[i + 1])
    ensures Inv(ss[i + 1])
  {
    assert TakesStep(ss, acts, i);
    r := NextStep(ss[i], acts[i], ss[i + 1]);
  }

  lemma StepsExtend(ss: seq<System>, acts: seq<Action>, rs: seq<Pass>, r: Pass)
    requires |rs| < |acts| && |ss| == |acts| + 1
    requires forall i {:trigger rs[i]} :: 0 <= i < |rs| ==> Step(ss[i], acts[i], rs[i], ss[i + 1])
    requires Step(ss[|rs|], acts[|rs|], r, ss[|rs| + 1])
    ensures var rs' := rs + [r];
      forall i {:trigger rs'[i]} :: 0 <= i < |rs'| ==> Step(ss[i], acts[i], rs'[i], ss[i + 1])
  {
    var rs' := rs + [r];
    forall i | 0 <= i < |rs'| ensures Step(ss[i], acts[i], rs'[i], ss[i + 1]) {
      assert i < |rs| ==> rs'[i] == rs[i];
    }
  }

  lemma {:induction false} StepsUpTo(ss: seq<System>, acts: seq<Action>, n: nat) returns (rs: seq<Pass>)
    requires IsRun(ss, acts) && n <= |acts|
    ensures |rs| == n && Inv(ss[n])
    ensures forall i {:trigger rs[i]} :: 0 <= i < n ==> Step(ss[i], acts[i], rs[i], ss[i + 1])
  {
    if n == 0 {
      InitInv(ss[0]);
      rs := [];
    } else {
      var before := StepsUpTo(ss, acts, n - 1);
      var r := RunStep(ss, acts, n - 1);
      StepsExtend(ss, acts, before, r);
      rs := before + [r];
    }
  }

  /** Every run is a behaviour: whatever mix of passes, moves, deletions and fleet activity, with
      patches kept or lost, every state satisfies the system invariant and every pass is one of
      the table's. */
  lemma RunIsBehaviour(ss: seq<System>, acts: seq<Action>) returns (rs: seq<Pass>)
    requires IsRun(ss, acts)
    ensures Behaviour(ss, acts, rs)
    ensures Inv(ss[|acts|])
  {
    rs := StepsUpTo(ss, acts, |acts|);
  }

  /** In every state of every run, each machine's markers, status and provider ID are in the order
      of the stages, its finalizer guards its recorded node, and its claim key is a UID of its own. */
  lemma StagesInOrder(ss: seq<System>, acts: seq<Action>, mid: Mid)
    requires IsRun(ss, acts) && mid in ss[|acts|].objs
    ensures var s := ss[|acts|];
      var o := s.objs[mid];
      && Chain(o) && !Gone(o)
      && ClaimKeyFor(o) in s.issued && s.issued[ClaimKeyFor(o)] == mid
      && (o.marks.nodeId != "" ==> ClaimKeyFor(o) == o.marks.claimKey && o.finalizer)
  {
    var rs := RunIsBehaviour(ss, acts);
    assert MachineOk(ss[|acts|], mid);
    OwnKey(ss[|acts|], mid);
  }
}
