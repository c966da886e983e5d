/** After a machine's node has rejoined, the controller leaves the node alone. */
module Quiescence {
  import opened Clock
  import opened Fleet
  import opened Machine
  import opened Transitions
  import opened System
  import Ownership

  /** Node heartbeats never go backwards. */
  predicate HeartbeatsAdvance(s: System, a: Action) {
    a.FleetMoves? ==>
      forall n :: n in s.fleet.nodes && s.fleet.nodes[n].heartbeat.Some? ==>
        && n in a.next.nodes && a.next.nodes[n].heartbeat.Some?
        && s.fleet.nodes[n].heartbeat.value <= a.next.nodes[n].heartbeat.value
  }

  /** The node has been heard from since the stored reboot second, or has been removed. */
  predicate Settled(s: System, mid: Mid, m: Marks) {
    && mid < s.born && m.rebootAt.Sec? && m.nodeId != ""
    && (mid in s.objs ==> s.objs[mid].marks == m)
    && (m.nodeId in s.retired
        || (m.nodeId in s.fleet.nodes && s.fleet.nodes[m.nodeId].heartbeat.Some?
            && s.fleet.nodes[m.nodeId].heartbeat.value > m.rebootAt.s * SECOND))
  }

  /** An event that queues a command or clears a marker. */
  predicate Disturbs(d: Deed) {
    d.ApplyQueued? || d.RebootQueued? || d.ApplyRefused? || d.RebootRefused?
  }

  /** A pass over a settled machine changes no marker and disturbs nothing. */
  lemma SettledPass(s: System, mid: Mid, w: World, r: Pass, s': System, m: Marks)
    requires Step(s, PassOver(mid, w), r, s') && Settled(s, mid, m)
    ensures !Disturbs(r.deed) && r.obj.marks == m
  {
    assert MachineOk(s, mid);
  }

  lemma NodeReportsKept(s: System, a: Action, r: Pass, s': System, n: NodeId)
    requires Step(s, a, r, s') && HeartbeatsAdvance(s, a)
    requires n in s.fleet.nodes && s.fleet.nodes[n].heartbeat.Some?
    ensures n in s'.retired
      || (n in s'.fleet.nodes && s'.fleet.nodes[n].heartbeat.Some?
          && s.fleet.nodes[n].heartbeat.value <= s'.fleet.nodes[n].heartbeat.value)
  {
    if a.PassOver? {
      ReportsKept(s.objs[a.mid], s.fleet, a.world, r, n);
    } else if a.NodeRemoved? {
      RemoveNodeSound(s.fleet, a.node);
    }
  }

  lemma SettledStep(ss: seq<System>, acts: seq<Action>, rs: seq<Pass>, mid: Mid, m: Marks, i: nat)
    requires Behaviour(ss, acts, rs) && i < |acts| && HeartbeatsAdvance(ss[i], acts[i]) && Settled(ss[i], mid, m)
    ensures Settled(ss[i + 1], mid, m)
  {
    var s, a, r, s' := ss[i], acts[i], rs[i], ss[i + 1];
    assert Step(s, a, r, s');
    Ownership.RecordStepAt(ss, acts, rs, mid, i);
    if m.nodeId !in s.retired {
      NodeReportsKept(s, a, r, s', m.nodeId);
    }
    SettledMarks(s, a, r, s', mid, m);
  }

  lemma SettledMarks(s: System, a: Action, r: Pass, s': System, mid: Mid, m: Marks)
    requires Step(s, a, r, s') && Settled(s, mid, m)
    ensures mid in s.objs && mid in s'.objs ==> s'.objs[mid].marks == m
    ensures s.retired <= s'.retired
  {
    if a.PassOver? && a.mid == mid {
      SettledPass(s, mid, a.world, r, s', m);
    }
  }

  lemma {:induction false} SettledThroughout(ss: seq<System>, acts: seq<Action>, rs: seq<Pass>,
                                             mid: Mid, m: Marks, i: nat, j: nat)
    requires Behaviour(ss, acts, rs) && i <= j <= |acts| && Settled(ss[i], mid, m)
    requires forall k {:trigger acts[k]} :: i <= k < j ==> HeartbeatsAdvance(ss[k], acts[k])
    ensures Settled(ss[j], mid, m)
  {
    if i < j {
      SettledThroughout(ss, acts, rs, mid, m, i, j - 1);
      assert HeartbeatsAdvance(ss[j - 1], acts[j - 1]);
      SettledStep(ss, acts, rs, mid, m, j - 1);
    }
  }

  /** Once the rejoin gate has held for the stored reboot second, and while heartbeats do not go
      backwards, no later pass over the machine queues an apply or a reboot or clears a marker:
      not through Offline and Online flapping, late Failed or Expired phases, moves or lost
      patches. */
  lemma RejoinIsFinal(ss: seq<System>, acts: seq<Action>, mid: Mid, i: nat)
    requires IsRun(ss, acts) && i < |acts| && mid in ss[i].objs
    requires var m := ss[i].objs[mid].marks;
      m.nodeId in ss[i].fleet.nodes && RejoinedAfterReboot(m.rebootAt, ss[i].fleet.nodes[m.nodeId])
    requires forall k {:trigger acts[k]} :: i <= k < |acts| ==> HeartbeatsAdvance(ss[k], acts[k])
    ensures mid in ss[|acts|].objs ==> ss[|acts|].objs[mid].marks == ss[i].objs[mid].marks
    ensures acts[|acts| - 1].PassOver? && acts[|acts| - 1].mid == mid ==> !Disturbs(LastDeed(ss[|acts|]))
  {
    var rs := RunIsBehaviour(ss, acts);
    SettledAt(ss, acts, rs, mid, i);
    QuietOnceSettled(ss, acts, rs, mid, ss[i].objs[mid].marks, i, |acts| - 1);
  }

  lemma QuietOnceSettled(ss: seq<System>, acts: seq<Action>, rs: seq<Pass>, mid: Mid, m: Marks, i: nat, j: nat)
    requires Behaviour(ss, acts, rs) && i <= j < |acts| && Settled(ss[i], mid, m)
    requires forall k {:trigger acts[k]} :: i <= k <= j ==> HeartbeatsAdvance(ss[k], acts[k])
    ensures mid in ss[j + 1].objs ==> ss[j + 1].objs[mid].marks == m
    ensures acts[j].PassOver? && acts[j].mid == mid ==> !Disturbs(LastDeed(ss[j + 1]))
  {
    SettledThroughout(ss, acts, rs, mid, m, i, j);
    assert HeartbeatsAdvance(ss[j], acts[j]);
    SettledStep(ss, acts, rs, mid, m, j);
    assert Step(ss[j], acts[j], rs[j], ss[j + 1]);
    if acts[j].PassOver? && acts[j].mid == mid {
      SettledPass(ss[j], mid, acts[j].world, rs[j], ss[j + 1], m);
    }
  }

  lemma SettledAt(ss: seq<System>, acts: seq<Action>, rs: seq<Pass>, mid: Mid, i: nat)
    requires Behaviour(ss, acts, rs) && i < |acts| && mid in ss[i].objs
    requires var m := ss[i].objs[mid].marks;
      m.nodeId in ss[i].fleet.nodes && RejoinedAfterReboot(m.rebootAt, ss[i].fleet.nodes[m.nodeId])
    ensures Settled(ss[i], mid, ss[i].objs[mid].marks)
  {
    assert Step(ss[i], acts[i], rs[i], ss[i + 1]);
    assert MachineOk(ss[i], mid);
  }
}
