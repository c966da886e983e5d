/** What a run proves about a machine: that being provisioned was earned, and that the commands it
    acts on are its own latest ones. */
module History {
  import opened Clock
  import opened Fleet
  import opened Machine
  import opened Transitions
  import opened Stages
  import opened System
  import Commands

  /*** Evidence ***/

  /** Which actions of a run passed a machine's stages, what the apply carried, and when the reboot
      was queued. */
  datatype Evidence = Evidence(claim: nat, apply: nat, reboot: nat, rejoin: nat, data: string, rebootedAt: int)

  /** Action i of the run is a pass over the machine. */
  ghost predicate PassAt(ss: seq<System>, acts: seq<Action>, i: nat, mid: Mid) {
    |ss| == |acts| + 1 && i < |acts| && acts[i].PassOver? && acts[i].mid == mid
  }

  /** Action i claims the node for the machine. */
  ghost predicate ClaimAt(ss: seq<System>, acts: seq<Action>, i: nat, mid: Mid, n: NodeId, k: Key) {
    PassAt(ss, acts, i, mid) && LastDeed(ss[i + 1]) == Claimed(n, k)
  }

  /** Action i queues an apply of the bootstrap Secret's data as the pass reads it. */
  ghost predicate ApplyAt(ss: seq<System>, acts: seq<Action>, i: nat, mid: Mid, n: NodeId, data: string, id: string) {
    && PassAt(ss, acts, i, mid)
    && acts[i].world.bootstrap == Data(data)
    && var d := LastDeed(ss[i + 1]);
       d.ApplyQueued? && d.node == n && d.secret == data && d.id == id
  }

  /** The node's history shows the command, with that cloud-config, Completed. */
  ghost predicate ShowsCompleted(f: FleetState, n: NodeId, id: string, config: string) {
    && n in f.nodes
    && exists c :: c in f.nodes[n].commands
         && c.id == id && c.kind == ApplyCloudConfig && c.config == config && c.phase == Completed
  }

  /** Action i queues a reboot while the fleet shows the apply `seen` of `data` Completed. */
  ghost predicate RebootAt(ss: seq<System>, acts: seq<Action>, i: nat, mid: Mid,
                           n: NodeId, seen: string, data: string, id: string, at: int) {
    && PassAt(ss, acts, i, mid)
    && LastDeed(ss[i + 1]) == RebootQueued(n, seen, id, at)
    && ShowsCompleted(ss[i].fleet, n, seen, data)
  }

  /** Action i finds the node Online with a heartbeat later than `after`. */
  ghost predicate RejoinAt(ss: seq<System>, acts: seq<Action>, i: nat, mid: Mid, n: NodeId, after: int) {
    && PassAt(ss, acts, i, mid)
    && LastDeed(ss[i + 1]).Rejoined?
    && n in ss[i].fleet.nodes && ss[i].fleet.nodes[n].phase == Online
    && ss[i].fleet.nodes[n].heartbeat.Some? && ss[i].fleet.nodes[n].heartbeat.value > after
  }

  /** The actions before i bear out what the markers and `provisioned` say: each has its event, in
      order and all for the recorded node. */
  ghost predicate Earned(ss: seq<System>, acts: seq<Action>, i: nat, mid: Mid,
                         m: Marks, provisioned: bool, e: Evidence) {
    && (m.nodeId != "" ==> e.claim < i && ClaimAt(ss, acts, e.claim, mid, m.nodeId, m.claimKey))
    && (m.applied ==>
          e.claim < e.apply < i && ApplyAt(ss, acts, e.apply, mid, m.nodeId, e.data, m.applyCommand))
    && (m.rebootAt.Sec? ==>
          && e.apply < e.reboot < i
          && RebootAt(ss, acts, e.reboot, mid, m.nodeId, m.applyCommand, e.data, m.rebootCommand, e.rebootedAt)
          && e.rebootedAt - SECOND < m.rebootAt.s * SECOND)
    && (provisioned ==>
          && e.reboot < e.rejoin < i && m.rebootAt.Sec?
          && RejoinAt(ss, acts, e.rejoin, mid, m.nodeId, m.rebootAt.s * SECOND))
  }

  /** The node's history still has the command, unless the node has been removed. */
  ghost predicate StillCarried(s: System, n: NodeId, id: string, kind: CommandKind, config: string) {
    n in s.retired || (n in s.fleet.nodes && Carries(s.fleet.nodes[n].commands, id, kind, config))
  }

  /** The recorded commands are still there, the apply with its cloud-config. */
  ghost predicate Carried(s: System, m: Marks, data: string) {
    && (m.applied ==> StillCarried(s, m.nodeId, m.applyCommand, ApplyCloudConfig, data))
    && (m.rebootAt.Sec? ==> StillCarried(s, m.nodeId, m.rebootCommand, RebootNode, ""))
  }

  /** The evidence, at state i of the run, for what the machine's object says there. */
  ghost predicate Evident(ss: seq<System>, acts: seq<Action>, i: nat, mid: Mid, e: Evidence)
    requires i < |ss| && mid in ss[i].objs
  {
    && Earned(ss, acts, i, mid, ss[i].objs[mid].marks, ss[i].objs[mid].status.provisioned, e)
    && Carried(ss[i], ss[i].objs[mid].marks, e.data)
  }

  /** The machine queued no apply between actions j and i. */
  ghost predicate NoLaterApply(ss: seq<System>, acts: seq<Action>, mid: Mid, j: nat, i: nat) {
    forall k: nat :: j < k < i && PassAt(ss, acts, k, mid) ==> !LastDeed(ss[k + 1]).ApplyQueued?
  }

  ghost predicate NoLaterReboot(ss: seq<System>, acts: seq<Action>, mid: Mid, j: nat, i: nat) {
    forall k: nat :: j < k < i && PassAt(ss, acts, k, mid) ==> !LastDeed(ss[k + 1]).RebootQueued?
  }

  /** The commands recorded in m are the machine's latest of their kinds. */
  ghost predicate LatestFor(ss: seq<System>, acts: seq<Action>, i: nat, mid: Mid, m: Marks, e: Evidence) {
    && (m.applied ==> NoLaterApply(ss, acts, mid, e.apply, i))
    && (m.rebootAt.Sec? ==> NoLaterReboot(ss, acts, mid, e.reboot, i))
  }

  ghost predicate Latest(ss: seq<System>, acts: seq<Action>, i: nat, mid: Mid, e: Evidence)
    requires i < |ss| && mid in ss[i].objs
  {
    LatestFor(ss, acts, i, mid, ss[i].objs[mid].marks, e)
  }

  /** If the action is a pass over this machine, its writes are stored and no reply is lost on the
      way back. Passes over other machines may fare as they will. */
  predicate Persisted(a: Action, mid: Mid) {
    a.PassOver? && a.mid == mid ==> a.world.patchKept && a.world.fault != ReplyLost
  }

  /*** Commands stay in the history ***/

  lemma CarriedStep(s: System, a: Action, r: Pass, s': System,
                    n: NodeId, id: string, kind: CommandKind, config: string)
    requires Step(s, a, r, s') && StillCarried(s, n, id, kind, config)
    ensures StillCarried(s', n, id, kind, config)
  {
    if n !in s.retired {
      var cmds := s.fleet.nodes[n].commands;
      var i :| 0 <= i < |cmds| && cmds[i].id == id && cmds[i].kind == kind && cmds[i].config == config;
      if a.PassOver? {
        assert n in s'.fleet.nodes && s'.fleet.nodes[n].commands[i] == cmds[i] by {
          CommandsGrow(s.objs[a.mid], s.fleet, a.world, r, n);
        }
      } else if a.FleetMoves? {
        assert HistoryKept(cmds, s'.fleet.nodes[n].commands);
      } else if a.NodeRemoved? {
        RemoveNodeSound(s.fleet, a.node);
      }
    }
  }

  lemma JustQueued(f: FleetState, f': FleetState, n: NodeId, c: Command)
    requires QueueEffect(f, f', n, c)
    ensures n in f'.nodes && Carries(f'.nodes[n].commands, c.id, c.kind, c.config)
  {
    var cmds := f'.nodes[n].commands;
    assert cmds[|cmds| - 1] == c;
  }

  lemma QueuedCarries(s: System, mid: Mid, w: World, r: Pass, s': System)
    requires Step(s, PassOver(mid, w), r, s')
    ensures r.deed.ApplyQueued? ==>
      StillCarried(s', r.deed.node, r.deed.id, ApplyCloudConfig, r.deed.secret)
    ensures r.deed.RebootQueued? ==> StillCarried(s', r.deed.node, r.deed.id, RebootNode, "")
  {
    if r.deed.ApplyQueued? {
      JustQueued(s.fleet, r.fleet, r.deed.node, ApplyCommandOf(w, r.deed.secret));
    } else if r.deed.RebootQueued? {
      JustQueued(s.fleet, r.fleet, r.deed.node, RebootCommandOf(w));
    }
  }

  /** Whoever steps, commands recorded before and after the step stay in the history. */
  lemma CarriedKept(s: System, a: Action, r: Pass, s': System, m: Marks, data: string)
    requires Step(s, a, r, s') && Carried(s, m, data)
    ensures Carried(s', m, data)
  {
    if m.applied {
      CarriedStep(s, a, r, s', m.nodeId, m.applyCommand, ApplyCloudConfig, data);
    }
    if m.rebootAt.Sec? {
      CarriedStep(s, a, r, s', m.nodeId, m.rebootCommand, RebootNode, "");
    }
  }

  /*** Whose command an outcome is read from ***/

  /** A recorded command's outcome is read from that command and no other. */
  lemma VerdictIsOwn(f: FleetState, w: World, n: NodeId, id: string, kind: CommandKind, config: string)
    returns (c: Command)
    requires Histories(f) && n in f.nodes && id != "" && Carries(f.nodes[n].commands, id, kind, config)
    ensures c in f.nodes[n].commands && c.id == id && c.kind == kind && c.config == config
    ensures forall c' :: c' in f.nodes[n].commands && c'.id == id ==> c' == c
    ensures CommandVerdict(f, w, n, id, kind)
         == if w.commandsReadFails then Commands.Undecided else Commands.VerdictOf(c)
  {
    var cmds := f.nodes[n].commands;
    var i :| 0 <= i < |cmds| && cmds[i].id == id && cmds[i].kind == kind && cmds[i].config == config;
    c := cmds[i];
    Commands.OnlyTheRecordedCommand(cmds, cmds, c, kind);
  }

  /** Command c, in the node's history, is the machine's own recorded one, the apply with its
      cloud-config, and in the phase the event d acts on. */
  ghost predicate OutcomeOf(f: FleetState, m: Marks, d: Deed, data: string, c: Command) {
    && m.nodeId in f.nodes && c in f.nodes[m.nodeId].commands
    && (d.RebootRefused? ==>
          c.id == m.rebootCommand && c.kind == RebootNode && (c.phase == Failed || c.phase == Expired))
    && (!d.RebootRefused? ==> c.id == m.applyCommand && c.kind == ApplyCloudConfig && c.config == data)
    && (d.ApplyRefused? ==> c.phase == Failed || c.phase == Expired)
    && (d.RebootQueued? ==> c.phase == Completed)
  }

  predicate ActsOnOutcome(d: Deed) {
    d.RebootQueued? || d.ApplyRefused? || d.RebootRefused?
  }

  /** What a machine with evidence saw of its own command when it acted on it. */
  lemma OwnVerdict(s: System, mid: Mid, w: World, r: Pass, s': System, data: string)
    requires Step(s, PassOver(mid, w), r, s') && Carried(s, s.objs[mid].marks, data) && ActsOnOutcome(r.deed)
    ensures var m := s.objs[mid].marks;
      && m.nodeId in s.fleet.nodes
      && var cmds := s.fleet.nodes[m.nodeId].commands;
         if r.deed.RebootRefused? then
           && m.rebootCommand != "" && Carries(cmds, m.rebootCommand, RebootNode, "")
           && CommandVerdict(s.fleet, w, m.nodeId, m.rebootCommand, RebootNode).Refused?
         else
           && m.applyCommand != "" && Carries(cmds, m.applyCommand, ApplyCloudConfig, data)
           && var verdict := CommandVerdict(s.fleet, w, m.nodeId, m.applyCommand, ApplyCloudConfig);
              if r.deed.RebootQueued? then verdict.Succeeded? else verdict.Refused?
  {
    assert MachineOk(s, mid);
  }

  lemma OwnOutcome(s: System, mid: Mid, w: World, r: Pass, s': System, data: string) returns (c: Command)
    requires Step(s, PassOver(mid, w), r, s') && Carried(s, s.objs[mid].marks, data) && ActsOnOutcome(r.deed)
    ensures OutcomeOf(s.fleet, s.objs[mid].marks, r.deed, data, c)
  {
    OwnVerdict(s, mid, w, r, s', data);
    var m := s.objs[mid].marks;
    if r.deed.RebootRefused? {
      c := VerdictIsOwn(s.fleet, w, m.nodeId, m.rebootCommand, RebootNode, "");
    } else {
      c := VerdictIsOwn(s.fleet, w, m.nodeId, m.applyCommand, ApplyCloudConfig, data);
    }
  }

  /*** One step ***/

  /** What the machine's own written-back pass, as action i, adds to the evidence. */
  function Updated(e: Evidence, i: nat, d: Deed): Evidence {
    match d
    case Claimed(_, _) => e.(claim := i)
    case ApplyQueued(_, data, _, _) => e.(apply := i, data := data)
    case RebootQueued(_, _, _, at) => e.(reboot := i, rebootedAt := at)
    case Rejoined(_, _) => e.(rejoin := i)
    case _ => e
  }

  /** The pass that is action i earns what the object it leaves in memory says. */
  lemma PassEarns(ss: seq<System>, acts: seq<Action>, i: nat, mid: Mid, o: Object, w: World, r: Pass, e: Evidence)
    requires |ss| == |acts| + 1 && i < |acts| && acts[i] == PassOver(mid, w) && LastDeed(ss[i + 1]) == r.deed
    requires DeedEffect(o, ss[i].fleet, w, r) && Chain(o) && Chain(r.obj) && w.queuedAt <= w.later && w.newId != ""
    requires Earned(ss, acts, i, mid, o.marks, o.status.provisioned, e)
    requires r.deed.RebootQueued? ==> ShowsCompleted(ss[i].fleet, o.marks.nodeId, o.marks.applyCommand, e.data)
    ensures Earned(ss, acts, i + 1, mid, r.obj.marks, r.obj.status.provisioned, Updated(e, i, r.deed))
  {
    FormatBounds(w.later);
  }

  /** Commands recorded by the object a pass leaves in memory are in the history. */
  lemma PassCarries(s: System, mid: Mid, w: World, r: Pass, s': System, i: nat, e: Evidence)
    requires Step(s, PassOver(mid, w), r, s') && Carried(s, s.objs[mid].marks, e.data)
    ensures Carried(s', r.obj.marks, Updated(e, i, r.deed).data)
  {
    assert MachineOk(s, mid);
    QueuedCarries(s, mid, w, r, s');
    CarriedKept(s, PassOver(mid, w), r, s', s.objs[mid].marks, e.data);
    CarriedMarks(s.objs[mid], s.fleet, w, r);
  }

  /** A pass keeps each recorded command, drops it, or records the one it queued. */
  lemma CarriedMarks(o: Object, f: FleetState, w: World, r: Pass)
    requires DeedEffect(o, f, w, r) && Chain(o) && w.newId != ""
    ensures var m, m' := o.marks, r.obj.marks;
      && (m'.applied ==>
            || (r.deed.ApplyQueued? && m'.nodeId == r.deed.node && m'.applyCommand == r.deed.id && !m'.rebootAt.Sec?)
            || (!r.deed.ApplyQueued? && m.applied && m'.nodeId == m.nodeId && m'.applyCommand == m.applyCommand))
      && (m'.rebootAt.Sec? ==>
            || (r.deed.RebootQueued? && m'.nodeId == r.deed.node && m'.rebootCommand == r.deed.id)
            || (m.rebootAt.Sec? && m'.nodeId == m.nodeId && m'.rebootCommand == m.rebootCommand))
  {
  }

  lemma RebootSeesCompleted(s: System, mid: Mid, w: World, r: Pass, s': System, data: string)
    requires Step(s, PassOver(mid, w), r, s') && Carried(s, s.objs[mid].marks, data)
    ensures r.deed.RebootQueued? ==>
              ShowsCompleted(s.fleet, s.objs[mid].marks.nodeId, s.objs[mid].marks.applyCommand, data)
  {
    if r.deed.RebootQueued? {
      var c := OwnOutcome(s, mid, w, r, s', data);
    }
  }

  lemma PassStored(s: System, mid: Mid, w: World, r: Pass, s': System)
    requires Step(s, PassOver(mid, w), r, s') && w.patchKept && mid in s'.objs
    ensures LastDeed(s') == r.deed && s'.objs[mid] == r.obj && Chain(s.objs[mid]) && Chain(r.obj)
    ensures DeedEffect(s.objs[mid], s.fleet, w, r) && w.queuedAt <= w.later && w.newId != ""
  {
    assert MachineOk(s, mid) && MachineOk(s', mid);
  }

  lemma OwnPassEvident(ss: seq<System>, acts: seq<Action>, i: nat, mid: Mid, w: World, r: Pass, e: Evidence)
    requires |ss| == |acts| + 1 && i < |acts| && acts[i] == PassOver(mid, w)
    requires Step(ss[i], acts[i], r, ss[i + 1]) && w.patchKept && mid in ss[i + 1].objs
    requires Evident(ss, acts, i, mid, e)
    ensures Evident(ss, acts, i + 1, mid, Updated(e, i, r.deed))
  {
    var s, s' := ss[i], ss[i + 1];
    RebootSeesCompleted(s, mid, w, r, s', e.data);
    PassStored(s, mid, w, r, s');
    PassEarns(ss, acts, i, mid, s.objs[mid], w, r, e);
    PassCarries(s, mid, w, r, s', i, e);
  }

  lemma OthersPass(s: System, a: Action, r: Pass, s': System, mid: Mid)
    requires Step(s, a, r, s') && mid in s.objs && mid in s'.objs && !(a.PassOver? && a.mid == mid)
    ensures s'.objs[mid].marks == s.objs[mid].marks
    ensures s'.objs[mid].status.provisioned ==> s.objs[mid].status.provisioned
    ensures s.trace <= s'.trace
    ensures forall i :: |s.trace| <= i < |s'.trace| ==> s'.trace[i].mid != mid
  {
    if a.PassOver? {
      assert s'.objs[mid] == s.objs[mid];
    } else {
      assert s'.trace == s.trace;
    }
  }

  /** Lost patches and everybody else's steps leave the evidence as it is. */
  lemma EvidenceUnchanged(ss: seq<System>, acts: seq<Action>, i: nat, mid: Mid, r: Pass, e: Evidence)
    requires |ss| == |acts| + 1 && i < |acts| && Step(ss[i], acts[i], r, ss[i + 1])
    requires mid in ss[i].objs && mid in ss[i + 1].objs && Evident(ss, acts, i, mid, e)
    requires acts[i].PassOver? && acts[i].mid == mid ==> !acts[i].world.patchKept
    ensures Evident(ss, acts, i + 1, mid, e)
  {
    var s, s' := ss[i], ss[i + 1];
    if acts[i].PassOver? && acts[i].mid == mid {
      assert s'.objs == s.objs;
    } else {
      OthersPass(s, acts[i], r, s', mid);
    }
    CarriedKept(s, acts[i], r, s', s.objs[mid].marks, e.data);
  }

  /** What a persisted pass over the machine does to its markers, as far as commands go. */
  lemma PersistedPass(s: System, mid: Mid, w: World, r: Pass, s': System)
    requires Step(s, PassOver(mid, w), r, s') && Persisted(PassOver(mid, w), mid) && mid in s'.objs
    ensures LastDeed(s') == r.deed && s'.objs[mid] == r.obj
    ensures r.obj.marks.applied ==> s.objs[mid].marks.applied || r.deed.ApplyQueued?
    ensures r.obj.marks.rebootAt.Sec? ==> s.objs[mid].marks.rebootAt.Sec? || r.deed.RebootQueued?
    ensures r.deed.ApplyQueued? ==> !s.objs[mid].marks.applied
    ensures r.deed.RebootQueued? ==> !s.objs[mid].marks.rebootAt.Sec?
  {
    assert MachineOk(s, mid);
  }

  lemma LatestAfterPass(ss: seq<System>, acts: seq<Action>, i: nat, mid: Mid, m: Marks, m': Marks, e: Evidence)
    requires PassAt(ss, acts, i, mid) && LatestFor(ss, acts, i, mid, m, e)
    requires var d := LastDeed(ss[i + 1]);
      && (m'.applied ==> m.applied || d.ApplyQueued?) && (d.ApplyQueued? ==> !m.applied)
      && (m'.rebootAt.Sec? ==> m.rebootAt.Sec? || d.RebootQueued?) && (d.RebootQueued? ==> !m.rebootAt.Sec?)
    ensures LatestFor(ss, acts, i + 1, mid, m', Updated(e, i, LastDeed(ss[i + 1])))
  {
  }

  lemma LatestAfterOther(ss: seq<System>, acts: seq<Action>, i: nat, mid: Mid, m: Marks, e: Evidence)
    requires !PassAt(ss, acts, i, mid) && LatestFor(ss, acts, i, mid, m, e)
    ensures LatestFor(ss, acts, i + 1, mid, m, e)
  {
  }

  lemma LatestStep(ss: seq<System>, acts: seq<Action>, i: nat, mid: Mid, r: Pass, e: Evidence, e': Evidence)
    requires |ss| == |acts| + 1 && i < |acts| && Step(ss[i], acts[i], r, ss[i + 1])
    requires mid in ss[i].objs && mid in ss[i + 1].objs && Persisted(acts[i], mid) && Latest(ss, acts, i, mid, e)
    requires e' == if PassAt(ss, acts, i, mid) then Updated(e, i, r.deed) else e
    ensures Latest(ss, acts, i + 1, mid, e')
  {
    var m, m' := ss[i].objs[mid].marks, ss[i + 1].objs[mid].marks;
    if PassAt(ss, acts, i, mid) {
      PersistedPass(ss[i], mid, acts[i].world, r, ss[i + 1]);
      LatestAfterPass(ss, acts, i, mid, m, m', e);
    } else {
      OthersPass(ss[i], acts[i], r, ss[i + 1], mid);
      LatestAfterOther(ss, acts, i, mid, m, e);
    }
  }

  /** Every action of a run leaves a machine with evidence for what it says; and with evidence of
      its latest commands, if the action is not a pass over this machine that loses something. */
  lemma EvidenceStep(ss: seq<System>, acts: seq<Action>, rs: seq<Pass>, i: nat, mid: Mid, e: Evidence)
    returns (e': Evidence)
    requires Behaviour(ss, acts, rs) && i < |acts| && mid in ss[i].objs && mid in ss[i + 1].objs
    requires Evident(ss, acts, i, mid, e)
    ensures Evident(ss, acts, i + 1, mid, e')
    ensures Persisted(acts[i], mid) && Latest(ss, acts, i, mid, e) ==> Latest(ss, acts, i + 1, mid, e')
  {
    var r := rs[i];
    assert Step(ss[i], acts[i], r, ss[i + 1]);
    if PassAt(ss, acts, i, mid) && acts[i].world.patchKept {
      OwnPassEvident(ss, acts, i, mid, acts[i].world, r, e);
      e' := Updated(e, i, r.deed);
    } else {
      EvidenceUnchanged(ss, acts, i, mid, r, e);
      e' := e;
    }
    if Persisted(acts[i], mid) && Latest(ss, acts, i, mid, e) {
      LatestStep(ss, acts, i, mid, r, e, e');
    }
  }

  /*** The results about runs ***/

  lemma NewcomerAt(ss: seq<System>, acts: seq<Action>, rs: seq<Pass>, mid: Mid, i: nat, e: Evidence)
    requires Behaviour(ss, acts, rs) && i <= |acts| && mid in ss[i].objs
    requires i == 0 || mid !in ss[i - 1].objs
    ensures Evident(ss, acts, i, mid, e) && Latest(ss, acts, i, mid, e)
  {
    if i > 0 {
      assert Step(ss[i - 1], acts[i - 1], rs[i - 1], ss[i]);
    }
  }

  lemma {:induction false} EvidenceAlong(ss: seq<System>, acts: seq<Action>, rs: seq<Pass>, mid: Mid, i: nat)
    returns (e: Evidence)
    requires Behaviour(ss, acts, rs) && i <= |acts| && mid in ss[i].objs
    ensures Evident(ss, acts, i, mid, e)
    ensures (forall j :: 0 <= j < i ==> Persisted(acts[j], mid)) ==> Latest(ss, acts, i, mid, e)
  {
    if i == 0 || mid !in ss[i - 1].objs {
      e := Evidence(0, 0, 0, 0, "", 0);
      NewcomerAt(ss, acts, rs, mid, i, e);
    } else {
      var e0 := EvidenceAlong(ss, acts, rs, mid, i - 1);
      e := EvidenceStep(ss, acts, rs, i - 1, mid, e0);
    }
  }

  /** In every run, a provisioned machine has been through these actions, in order and all for the
      node it recorded: a claim under its key; an apply of the bootstrap Secret's data as read; a
      reboot queued while the fleet shows that very apply Completed; and a pass that finds the node
      Online with a heartbeat later than one second before the reboot was queued. Lost patches and
      replies, retries and moves do not change this. */
  lemma ProvisionedIsEarned(ss: seq<System>, acts: seq<Action>, mid: Mid) returns (e: Evidence)
    requires IsRun(ss, acts) && mid in ss[|acts|].objs && ss[|acts|].objs[mid].status.provisioned
    ensures var m := ss[|acts|].objs[mid].marks;
      && e.claim < e.apply < e.reboot < e.rejoin < |acts|
      && ClaimAt(ss, acts, e.claim, mid, m.nodeId, m.claimKey)
      && ApplyAt(ss, acts, e.apply, mid, m.nodeId, e.data, m.applyCommand)
      && RebootAt(ss, acts, e.reboot, mid, m.nodeId, m.applyCommand, e.data, m.rebootCommand, e.rebootedAt)
      && RejoinAt(ss, acts, e.rejoin, mid, m.nodeId, e.rebootedAt - SECOND)
  {
    var rs := RunIsBehaviour(ss, acts);
    e := EvidenceAlong(ss, acts, rs, mid, |acts|);
    assert MachineOk(ss[|acts|], mid);
  }

  /** Reboots are queued only once the machine's own recorded apply, carrying its bootstrap data,
      is Completed; and markers are cleared only when the machine's own recorded command is Failed
      or Expired. Nothing else in the unpruned history, before or after, has any say. */
  lemma OutcomesAreOwn(ss: seq<System>, acts: seq<Action>, mid: Mid, w: World) returns (e: Evidence, c: Command)
    requires IsRun(ss, acts) && acts != [] && acts[|acts| - 1] == PassOver(mid, w)
    requires mid in ss[|acts| - 1].objs && ActsOnOutcome(LastDeed(ss[|acts|]))
    ensures var i := |acts| - 1;
      && Evident(ss, acts, i, mid, e)
      && ((forall j :: 0 <= j < i ==> Persisted(acts[j], mid)) ==> Latest(ss, acts, i, mid, e))
      && OutcomeOf(ss[i].fleet, ss[i].objs[mid].marks, LastDeed(ss[|acts|]), e.data, c)
  {
    var rs := RunIsBehaviour(ss, acts);
    var i := |acts| - 1;
    e := EvidenceAlong(ss, acts, rs, mid, i);
    c := OwnOutcomeAt(ss, acts, rs, mid, i, e.data);
  }

  lemma OwnOutcomeAt(ss: seq<System>, acts: seq<Action>, rs: seq<Pass>, mid: Mid, i: nat, data: string)
    returns (c: Command)
    requires Behaviour(ss, acts, rs) && i < |acts| && PassAt(ss, acts, i, mid) && mid in ss[i].objs
    requires ActsOnOutcome(LastDeed(ss[i + 1])) && Carried(ss[i], ss[i].objs[mid].marks, data)
    ensures OutcomeOf(ss[i].fleet, ss[i].objs[mid].marks, LastDeed(ss[i + 1]), data, c)
  {
    assert Step(ss[i], acts[i], rs[i], ss[i + 1]);
    assert LastDeed(ss[i + 1]) == rs[i].deed;
    c := OwnOutcome(ss[i], mid, acts[i].world, rs[i], ss[i + 1], data);
  }
}
