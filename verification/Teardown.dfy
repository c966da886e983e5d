/** Deleting machines: every delete pass that is not hindered finishes, and a machine with a
    recorded node leaves only through one. */
module Teardown {
  import opened Fleet
  import opened Connection
  import opened Machine
  import opened Transitions
  import opened System
  import Ownership

  /** A delete pass returns no error exactly when it finishes; otherwise it returns an error, which
      brings about the next one, and leaves the object as it was. */
  lemma DeleteNeverStuck(o: Object, f: FleetState, w: World)
    requires Valid(f) && o.deleting && w.gate.Open?
    ensures var r := Reconcile(o, f, w);
      && (r.out == DONE <==> FinishesDelete(o, w))
      && (!FinishesDelete(o, w) ==> r.out.failed && r.obj == o.(finalizer := true))
      && (FinishesDelete(o, w) ==> r.obj == o.(finalizer := false))
      && (Reported(r.out, w).failed <==> !FinishesDelete(o, w) || !w.patchKept)
  {
    OpenGate(o, f, w);
    DeleteOutcome(o.(finalizer := true), f, w);
  }

  lemma DeleteOutcome(o: Object, f: FleetState, w: World)
    requires Valid(f) && o.deleting && o.finalizer && w.gate.Open?
    ensures var r := Delete(o, f, w);
      && r.out == (if FinishesDelete(o, w) then DONE else FAILED)
      && r.obj == o.(finalizer := !FinishesDelete(o, w))
  {
    ReleaseSound(f, o.marks.nodeId, ClaimKeyFor(o));
  }

  /** Which delete passes finish, by what they meet: there is nothing to release; or the fleet can be
      reached and answers; or it never can be again, as some object is absent, the URL empty or the
      token empty, and no read failed. */
  lemma FinishesDeleteIff(o: Object, w: World)
    requires w.gate.Open?
    ensures FinishesDelete(o, w) <==>
      || o.marks.nodeId == ""
      || (Connects(w.infra) && w.fault.Clean?)
      || w.infra.Missing?
      || (w.infra.Found? && w.infra.value.url == "")
      || (w.infra.Found? && (w.infra.value.token.Missing? || w.infra.value.token == Found("")))
  {
    ConnectionAgreement(w.infra);
  }

  /** A pass over the machine that cannot finish its deletion: it is paused or finds no owner, a
      read fails, the release gets no answer, or the patch is lost. A missing KairosFleetCluster
      or Secret is no hindrance. */
  predicate Hindered(s: System, mid: Mid, w: World)
    requires mid in s.objs
  {
    !w.patchKept || !FinishesDelete(s.objs[mid], w)
  }

  /** Passes over the machine during the last |acts| - i actions, all of them and the hindered ones. */
  ghost function Passes(ss: seq<System>, acts: seq<Action>, mid: Mid, i: nat, hinderedOnly: bool): nat
    requires |ss| == |acts| + 1
    decreases |acts| - i
  {
    if i >= |acts| then 0 else
    (if acts[i].PassOver? && acts[i].mid == mid && mid in ss[i].objs
        && (hinderedOnly ==> Hindered(ss[i], mid, acts[i].world)) then 1 else 0)
    + Passes(ss, acts, mid, i + 1, hinderedOnly)
  }

  predicate Deleting(s: System, mid: Mid) {
    mid < s.born && (mid in s.objs ==> s.objs[mid].deleting)
  }

  lemma DeletingStep(ss: seq<System>, acts: seq<Action>, rs: seq<Pass>, mid: Mid, i: nat)
    requires Behaviour(ss, acts, rs) && i < |acts| && Deleting(ss[i], mid)
    ensures Deleting(ss[i + 1], mid)
    ensures mid in ss[i + 1].objs ==> mid in ss[i].objs
    ensures mid in ss[i].objs && acts[i].PassOver? && acts[i].mid == mid ==>
              mid !in ss[i + 1].objs || Hindered(ss[i], mid, acts[i].world)
  {
    var s, a, r, s' := ss[i], acts[i], rs[i], ss[i + 1];
    assert Step(s, a, r, s');
    if mid in s.objs {
      assert MachineOk(s, mid);
      if mid in s'.objs { Ownership.RecordStep(s, a, r, s', mid); }
    }
  }

  /** A machine already gone gets no more passes. */
  lemma {:induction false} NoPassesOnceGone(ss: seq<System>, acts: seq<Action>, rs: seq<Pass>, mid: Mid, i: nat)
    requires Behaviour(ss, acts, rs) && i <= |acts| && Deleting(ss[i], mid) && mid !in ss[i].objs
    ensures Passes(ss, acts, mid, i, false) == 0 && mid !in ss[|acts|].objs
    decreases |acts| - i
  {
    if i < |acts| {
      DeletingStep(ss, acts, rs, mid, i);
      NoPassesOnceGone(ss, acts, rs, mid, i + 1);
    }
  }

  lemma {:induction false} PassesBounded(ss: seq<System>, acts: seq<Action>, rs: seq<Pass>, mid: Mid, i: nat)
    requires Behaviour(ss, acts, rs) && i <= |acts| && Deleting(ss[i], mid)
    ensures Passes(ss, acts, mid, i, false) <= Passes(ss, acts, mid, i, true) + 1
    ensures mid in ss[|acts|].objs ==> Passes(ss, acts, mid, i, false) == Passes(ss, acts, mid, i, true)
    decreases |acts| - i
  {
    if i < |acts| {
      DeletingStep(ss, acts, rs, mid, i);
      PassesBounded(ss, acts, rs, mid, i + 1);
      if mid !in ss[i + 1].objs {
        NoPassesOnceGone(ss, acts, rs, mid, i + 1);
      }
    }
  }

  /** From its deletion request on, a machine gets at most one pass more than it gets hindered
      ones: with k hindrances it is gone by pass k + 1, whatever the connection, other machines
      and the fleet do in between. As long as it is still there, every pass so far was hindered. */
  lemma {:induction false} DeletionTerminates(ss: seq<System>, acts: seq<Action>, mid: Mid, i: nat)
    requires IsRun(ss, acts) && i <= |acts| && mid in ss[i].objs && ss[i].objs[mid].deleting
    ensures Passes(ss, acts, mid, i, false) <= Passes(ss, acts, mid, i, true) + 1
    ensures mid in ss[|acts|].objs ==> Passes(ss, acts, mid, i, false) == Passes(ss, acts, mid, i, true)
    ensures Passes(ss, acts, mid, i, false) > Passes(ss, acts, mid, i, true) ==> mid !in ss[|acts|].objs
  {
    var rs := RunIsBehaviour(ss, acts);
    BornAt(ss, acts, rs, mid, i);
    PassesBounded(ss, acts, rs, mid, i);
  }

  lemma BornAt(ss: seq<System>, acts: seq<Action>, rs: seq<Pass>, mid: Mid, i: nat)
    requires Behaviour(ss, acts, rs) && Inv(ss[|acts|]) && i <= |acts| && mid in ss[i].objs
    ensures mid < ss[i].born
  {
    if i < |acts| {
      Ownership.RecordStepAt(ss, acts, rs, mid, i);
    } else {
      assert MachineOk(ss[i], mid);
    }
  }

  /** A machine that has recorded a node disappears only in a pass over it after its deletion was
      requested, and only when the node is no longer held under its key or there is no way left to
      reach the fleet. */
  lemma FinalizerIsSafe(ss: seq<System>, acts: seq<Action>, mid: Mid)
    requires IsRun(ss, acts) && acts != []
    requires mid in ss[|acts| - 1].objs && mid !in ss[|acts|].objs
    requires ss[|acts| - 1].objs[mid].marks.nodeId != ""
    ensures var s, a, s' := ss[|acts| - 1], acts[|acts| - 1], ss[|acts|];
      && a.PassOver? && a.mid == mid && s.objs[mid].deleting && a.world.gate.Open? && a.world.patchKept
      && match FleetClientForDelete(a.world.infra)
         case Connected => !Holds(s'.fleet, s.objs[mid].marks.nodeId, ClaimKeyFor(s.objs[mid]))
         case Unconnected(e) => IsPermanentlyUnresolvable(e)
  {
    var rs := RunIsBehaviour(ss, acts);
    var n := |acts| - 1;
    assert Step(ss[n], acts[n], rs[n], ss[n + 1]);
    assert MachineOk(ss[n], mid);
  }
}
