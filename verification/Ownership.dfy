/** Who owns which node, over every run: any number of machines, interleaved passes, lost patches,
    lost replies, moves, deletions and removed nodes. */
module Ownership {
  import opened Wrappers
  import opened Fleet
  import opened Machine
  import opened Transitions
  import opened Stages
  import opened System

  /*** Exclusive ownership ***/

  /** The machine is live, not being deleted, and has recorded a node. */
  predicate Owns(s: System, mid: Mid) {
    mid in s.objs && !s.objs[mid].deleting && s.objs[mid].marks.nodeId != ""
  }

  /** In every state of every run, machines that are not being deleted have recorded pairwise
      distinct nodes and pairwise distinct provider IDs, and the fleet holds each such node under
      that machine's claim key, unless the node itself has been removed. */
  lemma NodesAreExclusive(ss: seq<System>, acts: seq<Action>, i: Mid, j: Mid)
    requires IsRun(ss, acts)
    ensures var s := ss[|acts|];
      && (Owns(s, i) && Owns(s, j) && i != j ==> s.objs[i].marks.nodeId != s.objs[j].marks.nodeId)
      && (Owns(s, i) && Owns(s, j) && i != j && s.objs[i].providerID.Some? ==>
            s.objs[i].providerID != s.objs[j].providerID)
      && (Owns(s, i) && s.objs[i].marks.nodeId in s.fleet.nodes ==>
            Holds(s.fleet, s.objs[i].marks.nodeId, ClaimKeyFor(s.objs[i])))
  {
    var rs := RunIsBehaviour(ss, acts);
    OwnersDiffer(ss[|acts|], i, j);
    if Owns(ss[|acts|], i) && ss[|acts|].objs[i].marks.nodeId in ss[|acts|].fleet.nodes {
      assert MachineOk(ss[|acts|], i);
      OwnedIsHeld(ss[|acts|], i);
    }
  }

  lemma OwnersDiffer(s: System, i: Mid, j: Mid)
    requires Inv(s)
    ensures Owns(s, i) && Owns(s, j) && i != j ==>
      && s.objs[i].marks.nodeId != s.objs[j].marks.nodeId
      && (s.objs[i].providerID.Some? ==> s.objs[i].providerID != s.objs[j].providerID)
  {
    if Owns(s, i) && Owns(s, j) && i != j {
      assert MachineOk(s, i) && MachineOk(s, j);
      PrefixInjective(s.objs[i].marks.nodeId, s.objs[j].marks.nodeId);
    }
  }

  lemma PrefixInjective(a: string, b: string)
    ensures PROVIDER_ID_PREFIX + a == PROVIDER_ID_PREFIX + b ==> a == b
  {
    var p := PROVIDER_ID_PREFIX;
    assert (p + a)[|p|..] == a && (p + b)[|p|..] == b;
  }

  lemma OwnedIsHeld(s: System, mid: Mid)
    requires Inv(s) && mid in s.objs && mid !in s.released
    requires s.objs[mid].marks.nodeId in s.fleet.nodes
    ensures Holds(s.fleet, s.objs[mid].marks.nodeId, ClaimKeyFor(s.objs[mid]))
    ensures HeldBy(s.fleet, ClaimKeyFor(s.objs[mid])) == Some(s.objs[mid].marks.nodeId)
  {
    assert MachineOk(s, mid);
    OwnKey(s, mid);
    HoldsIsHeldBy(s.fleet, s.objs[mid].marks.nodeId, ClaimKeyFor(s.objs[mid]));
  }

  /** The node a queued command went to. */
  function CommandTarget(d: Deed): Option<NodeId> {
    match d
    case ApplyQueued(n, _, _, _) => Some(n)
    case RebootQueued(n, _, _, _) => Some(n)
    case _ => None
  }

  /** Every cloud-config and every reboot that reaches a node is sent by the machine under whose
      key the fleet holds the node at that moment, and no other live machine has it recorded. */
  lemma CommandsReachTheOwner(ss: seq<System>, acts: seq<Action>, w: World, mid: Mid, other: Mid)
    requires IsRun(ss, acts) && acts != [] && acts[|acts| - 1] == PassOver(mid, w)
    ensures var s, s' := ss[|acts| - 1], ss[|acts|];
      && mid in s.objs && |s'.trace| == |s.trace| + 1
      && var target := CommandTarget(s'.trace[|s.trace|].deed);
         target.Some? ==>
           && Holds(s.fleet, target.value, ClaimKeyFor(s.objs[mid]))
           && Holds(s'.fleet, target.value, ClaimKeyFor(s.objs[mid]))
           && (Owns(s, other) && other != mid ==> s.objs[other].marks.nodeId != target.value)
  {
    var rs := RunIsBehaviour(ss, acts);
    var n := |acts| - 1;
    CommandStep(ss[n], mid, w, rs[n], ss[n + 1], other);
  }

  lemma CommandStep(s: System, mid: Mid, w: World, r: Pass, s': System, other: Mid)
    requires Step(s, PassOver(mid, w), r, s')
    ensures |s'.trace| == |s.trace| + 1 && s'.trace[|s.trace|].deed == r.deed
    ensures var target := CommandTarget(r.deed);
      target.Some? ==>
        && Holds(s.fleet, target.value, ClaimKeyFor(s.objs[mid]))
        && Holds(s'.fleet, target.value, ClaimKeyFor(s.objs[mid]))
        && (Owns(s, other) && other != mid ==> s.objs[other].marks.nodeId != target.value)
  {
    assert MachineOk(s, mid);
    if CommandTarget(r.deed).Some? {
      assert mid !in s.released;
      if r.deed.ApplyQueued? {
        assert QueueEffect(s.fleet, r.fleet, r.deed.node, ApplyCommandOf(w, r.deed.secret));
      }
      OwnedIsHeld(s, mid);
      if other in s.objs { assert MachineOk(s, other); }
    }
  }

  /*** What a step can do to one key's claim ***/

  /** A key's claim changes only by its own machine claiming or releasing, or by its node being
      removed. */
  lemma KeyStep(s: System, a: Action, r: Pass, s': System, k: Key)
    requires Step(s, a, r, s') && k in s.issued
    ensures k in s'.issued && s'.issued[k] == s.issued[k]
    ensures HeldBy(s'.fleet, k) != HeldBy(s.fleet, k) ==>
      || (a.PassOver? && a.mid == s.issued[k] && a.mid in s.objs && k == ClaimKeyFor(s.objs[a.mid])
            && HeldBy(s.fleet, k) == None && r.deed.Claimed? && r.deed.key == k
            && HeldBy(s'.fleet, k) == Some(r.deed.node))
      || (a.PassOver? && a.mid == s.issued[k] && a.mid in s.objs
            && r.deed.Released? && r.deed.key == k && HeldBy(s'.fleet, k) == None)
      || (a.NodeRemoved? && HeldBy(s.fleet, k) == Some(a.node) && HeldBy(s'.fleet, k) == None)
  {
    if a.PassOver? {
      OwnKey(s, a.mid);
      var key := ClaimKeyFor(s.objs[a.mid]);
      assert OtherClaimsKept(s.fleet, r.fleet, key);
      OwnKeyEffect(s.objs[a.mid], s.fleet, a.world, r);
    } else if a.NodeRemoved? {
      RemoveNodeSound(s.fleet, a.node);
    }
  }

  /*** Crash-safe claim ***/

  /** The machine exists under this UID and has not recorded a node. */
  predicate Unclaimed(s: System, mid: Mid, uid: Uid) {
    mid in s.objs && !s.objs[mid].deleting && s.objs[mid].uid == uid && s.objs[mid].marks.nodeId == ""
  }

  /** The node is claimed under the key, unless it has been removed from the fleet. */
  predicate StillHeld(s: System, k: Key, n: NodeId) {
    HeldBy(s.fleet, k) == Some(n) || n in s.retired
  }

  ghost predicate OneNodeAtMost(f: FleetState, k: Key) {
    forall n, n' :: Holds(f, n, k) && Holds(f, n', k) ==> n == n'
  }

  lemma UnclaimedStep(ss: seq<System>, acts: seq<Action>, rs: seq<Pass>, i: nat, mid: Mid, uid: Uid, n: NodeId)
    requires Behaviour(ss, acts, rs) && i < |acts|
    requires Unclaimed(ss[i], mid, uid) && Unclaimed(ss[i + 1], mid, uid) && StillHeld(ss[i], uid, n)
    ensures StillHeld(ss[i + 1], uid, n)
  {
    assert Step(ss[i], acts[i], rs[i], ss[i + 1]);
    assert MachineOk(ss[i], mid);
    KeyStep(ss[i], acts[i], rs[i], ss[i + 1], uid);
  }

  lemma {:induction false} HeldWhileUnclaimed(ss: seq<System>, acts: seq<Action>, rs: seq<Pass>,
                                              mid: Mid, uid: Uid, n: NodeId, i: nat, j: nat)
    requires Behaviour(ss, acts, rs) && i <= j <= |acts|
    requires forall k :: i <= k <= j ==> Unclaimed(ss[k], mid, uid)
    requires StillHeld(ss[i], uid, n)
    ensures StillHeld(ss[j], uid, n)
  {
    if i < j {
      HeldWhileUnclaimed(ss, acts, rs, mid, uid, n, i, j - 1);
      UnclaimedStep(ss, acts, rs, j - 1, mid, uid, n);
    }
  }

  /** While a machine keeps its UID, at most one node is ever held under its key however many
      patches are lost; and once a claim has reached the fleet, the pass that gets its claim
      persisted records that same node, whatever happened to capacity or the group meanwhile. */
  lemma ClaimIsCrashSafe(ss: seq<System>, acts: seq<Action>, mid: Mid, uid: Uid, i: nat, w: World)
    requires IsRun(ss, acts) && i < |acts| && acts[|acts| - 1] == PassOver(mid, w)
    requires forall k :: i <= k < |acts| ==> Unclaimed(ss[k], mid, uid)
    requires HeldBy(ss[i].fleet, uid).Some?
    ensures OneNodeAtMost(ss[|acts|].fleet, uid)
    ensures var s' := ss[|acts|];
      var n := HeldBy(ss[i].fleet, uid).value;
      n !in s'.retired ==>
        && HeldBy(s'.fleet, uid) == Some(n)
        && (mid in s'.objs && s'.objs[mid].marks.nodeId != "" ==> s'.objs[mid].marks.nodeId == n)
  {
    var rs := RunIsBehaviour(ss, acts);
    ClaimSurvives(ss, acts, rs, mid, uid, i, |acts| - 1, w);
  }

  lemma ClaimSurvives(ss: seq<System>, acts: seq<Action>, rs: seq<Pass>, mid: Mid, uid: Uid, i: nat, j: nat, w: World)
    requires Behaviour(ss, acts, rs) && i <= j < |acts| && acts[j] == PassOver(mid, w)
    requires forall k :: i <= k <= j ==> Unclaimed(ss[k], mid, uid)
    requires HeldBy(ss[i].fleet, uid).Some?
    ensures OneNodeAtMost(ss[j + 1].fleet, uid)
    ensures var s', n := ss[j + 1], HeldBy(ss[i].fleet, uid).value;
      n !in s'.retired ==>
        && HeldBy(s'.fleet, uid) == Some(n)
        && (mid in s'.objs && s'.objs[mid].marks.nodeId != "" ==> s'.objs[mid].marks.nodeId == n)
  {
    HeldWhileUnclaimed(ss, acts, rs, mid, uid, HeldBy(ss[i].fleet, uid).value, i, j);
    assert Step(ss[j], acts[j], rs[j], ss[j + 1]);
    ClaimPassRecords(ss[j], mid, uid, w, rs[j], ss[j + 1]);
  }

  lemma ClaimPassRecords(s: System, mid: Mid, uid: Uid, w: World, r: Pass, s': System)
    requires Step(s, PassOver(mid, w), r, s') && Unclaimed(s, mid, uid)
    ensures s.retired == s'.retired
    ensures HeldBy(s.fleet, uid).Some? ==> HeldBy(s'.fleet, uid) == HeldBy(s.fleet, uid)
    ensures mid in s'.objs && s'.objs[mid].marks.nodeId != "" ==>
              HeldBy(s'.fleet, uid) == Some(s'.objs[mid].marks.nodeId)
    ensures OneNodeAtMost(s'.fleet, uid)
  {
    assert MachineOk(s, mid);
    KeyStep(s, PassOver(mid, w), r, s', uid);
    if mid in s'.objs && s'.objs[mid].marks.nodeId != "" {
      ClaimedNodeIsHeld(s, mid, w, r, s');
    }
    forall n, n' | Holds(s'.fleet, n, uid) && Holds(s'.fleet, n', uid) ensures n == n' {
      HoldsIsHeldBy(s'.fleet, n, uid);
      HoldsIsHeldBy(s'.fleet, n', uid);
    }
  }

  lemma ClaimedNodeIsHeld(s: System, mid: Mid, w: World, r: Pass, s': System)
    requires Step(s, PassOver(mid, w), r, s') && s.objs[mid].marks.nodeId == ""
    requires mid in s'.objs && s'.objs[mid].marks.nodeId != ""
    ensures HeldBy(s'.fleet, ClaimKeyFor(s.objs[mid])) == Some(s'.objs[mid].marks.nodeId)
  {
    assert MachineOk(s, mid);
    assert r.deed.Claimed? && ClaimEffect(s.fleet, r.fleet, r.deed.node, r.deed.key);
  }

  /*** The claim record, through moves ***/

  lemma RecordStep(s: System, a: Action, r: Pass, s': System, mid: Mid)
    requires Step(s, a, r, s') && mid in s.objs && mid in s'.objs
    ensures s.objs[mid].marks.nodeId != "" ==>
      && s'.objs[mid].marks.nodeId == s.objs[mid].marks.nodeId
      && s'.objs[mid].marks.claimKey == s.objs[mid].marks.claimKey
    ensures s.objs[mid].providerID.Some? ==> s'.objs[mid].providerID == s.objs[mid].providerID
    ensures s.objs[mid].deleting ==> s'.objs[mid].deleting
  {
    assert MachineOk(s, mid);
    if a.PassOver? {
      OwnOrOther(s, a.mid, a.world, r, s', mid);
      PassRecord(s, a.mid, a.world, r, s');
    } else {
      OtherRecord(s, a, s', mid);
    }
  }

  /** Other steps leave the markers of every machine alone; a new one has none. */
  lemma OtherRecord(s: System, a: Action, s': System, mid: Mid)
    requires !a.PassOver? && OtherStep(s, a, s') && mid in s'.objs
    ensures
      || (mid in s.objs
          && s'.objs[mid].marks == s.objs[mid].marks && s'.objs[mid].providerID == s.objs[mid].providerID
          && s'.objs[mid].finalizer == s.objs[mid].finalizer
          && (s.objs[mid].deleting ==> s'.objs[mid].deleting))
      || (a.CreateMachine? && mid == s.born && s'.objs[mid].marks == NO_MARKS)
  {
  }

  /** After a pass, an object is what it was or, if the pass is its own, what the pass left. */
  lemma OwnOrOther(s: System, worked: Mid, w: World, r: Pass, s': System, mid: Mid)
    requires PassStep(s, worked, w, r, s') && mid in s.objs && mid in s'.objs
    ensures s'.objs[mid] == s.objs[mid] || (worked == mid && s'.objs[mid] == r.obj)
  {
  }

  lemma PassRecord(s: System, mid: Mid, w: World, r: Pass, s': System)
    requires Step(s, PassOver(mid, w), r, s')
    ensures s'.objs == Written(s.objs, mid, r.obj, w.patchKept)
    ensures r.obj.uid == s.objs[mid].uid && r.obj.deleting == s.objs[mid].deleting
    ensures s.objs[mid].marks.nodeId != "" ==>
      && r.obj.marks.nodeId == s.objs[mid].marks.nodeId
      && r.obj.marks.claimKey == s.objs[mid].marks.claimKey
    ensures s.objs[mid].providerID.Some? ==> r.obj.providerID == s.objs[mid].providerID
  {
    assert MachineOk(s, mid);
    ClaimRecordKept(s.objs[mid], s.fleet, w, r);
  }

  /** A machine's identity is never reused, so an object present later was present all along. */
  lemma PresentBefore(s: System, a: Action, r: Pass, s': System, mid: Mid)
    requires Step(s, a, r, s') && mid in s'.objs && mid < s.born
    ensures mid in s.objs
  {
  }

  /** What step i does to a machine present before and after it. */
  lemma RecordStepAt(ss: seq<System>, acts: seq<Action>, rs: seq<Pass>, mid: Mid, i: nat)
    requires Behaviour(ss, acts, rs) && i < |acts|
    ensures mid in ss[i].objs ==> mid < ss[i].born
    ensures ss[i].born <= ss[i + 1].born
    ensures mid in ss[i + 1].objs && mid < ss[i].born ==> mid in ss[i].objs
    ensures mid in ss[i].objs && mid in ss[i + 1].objs ==> SameRecord(ss[i].objs[mid], ss[i + 1].objs[mid])
  {
    assert Step(ss[i], acts[i], rs[i], ss[i + 1]);
    if mid in ss[i].objs {
      assert MachineOk(ss[i], mid);
      if mid in ss[i + 1].objs {
        RecordStep(ss[i], acts[i], rs[i], ss[i + 1], mid);
      }
    }
  }

  /** A recorded claim and a published provider ID are still there. */
  predicate SameRecord(o: Object, o': Object) {
    && (o.marks.nodeId != "" ==> o'.marks.nodeId == o.marks.nodeId && o'.marks.claimKey == o.marks.claimKey)
    && (o.providerID.Some? ==> o'.providerID == o.providerID)
  }

  lemma {:induction false} RecordThroughout(ss: seq<System>, acts: seq<Action>, rs: seq<Pass>, mid: Mid, i: nat, j: nat)
    requires Behaviour(ss, acts, rs) && i < j <= |acts|
    requires mid in ss[i].objs
    ensures mid < ss[j].born
    ensures mid in ss[j].objs ==> SameRecord(ss[i].objs[mid], ss[j].objs[mid])
  {
    RecordStepAt(ss, acts, rs, mid, j - 1);
    if i < j - 1 {
      RecordThroughout(ss, acts, rs, mid, i, j - 1);
    }
  }

  lemma RecordInOrder(ss: seq<System>, acts: seq<Action>, rs: seq<Pass>, mid: Mid, i: nat)
    requires Behaviour(ss, acts, rs) && i < |acts| && mid in ss[i].objs
    ensures Chain(ss[i].objs[mid])
  {
    assert Step(ss[i], acts[i], rs[i], ss[i + 1]);
    assert MachineOk(ss[i], mid);
  }

  /** Once recorded, a machine's node, its claim key and its provider ID never change again,
      through retries, losing readiness, moves and deletion. */
  lemma RecordsAreStable(ss: seq<System>, acts: seq<Action>, mid: Mid, i: nat)
    requires IsRun(ss, acts) && i <= |acts|
    requires mid in ss[i].objs && mid in ss[|acts|].objs
    ensures var o, o' := ss[i].objs[mid], ss[|acts|].objs[mid];
      && (o.marks.nodeId != "" ==> o'.marks.nodeId == o.marks.nodeId && ClaimKeyFor(o') == o.marks.claimKey)
      && (o.providerID.Some? ==>
            o'.providerID == o.providerID == Some(PROVIDER_ID_PREFIX + o.marks.nodeId))
  {
    var rs := RunIsBehaviour(ss, acts);
    assert MachineOk(ss[|acts|], mid);
    if i < |acts| {
      RecordThroughout(ss, acts, rs, mid, i, |acts|);
      RecordInOrder(ss, acts, rs, mid, i);
    }
  }

  /** Until its own release has reached the fleet, a machine's release is never refused as a claim
      mismatch, whatever UIDs it has had since claiming: it succeeds, or the node is gone. */
  lemma ReleaseIsMoveProof(ss: seq<System>, acts: seq<Action>, mid: Mid)
    requires IsRun(ss, acts)
    requires var s := ss[|acts|]; mid in s.objs && s.objs[mid].marks.nodeId != "" && mid !in s.released
    ensures var s := ss[|acts|];
      var o := s.objs[mid];
      Release(s.fleet, o.marks.nodeId, ClaimKeyFor(o)).1
        == if o.marks.nodeId in s.retired then Err(NOT_FOUND) else Ok(true)
  {
    var rs := RunIsBehaviour(ss, acts);
    var s := ss[|acts|];
    var o := s.objs[mid];
    assert MachineOk(s, mid);
    OwnKey(s, mid);
    HoldsIsHeldBy(s.fleet, o.marks.nodeId, ClaimKeyFor(o));
    ReleaseSound(s.fleet, o.marks.nodeId, ClaimKeyFor(o));
  }

  /*** Crash-safe release ***/

  /** The machine is being deleted and the fleet holds nothing under its recorded key. */
  predicate Spent(s: System, mid: Mid, k: Key) {
    k in s.issued && s.issued[k] == mid && HeldBy(s.fleet, k) == None && mid < s.born
    && (mid in s.objs ==> s.objs[mid].deleting && s.objs[mid].marks.nodeId != "" && s.objs[mid].marks.claimKey == k)
  }

  lemma SpentStep(s: System, a: Action, r: Pass, s': System, mid: Mid, k: Key)
    requires Step(s, a, r, s') && Spent(s, mid, k)
    ensures Spent(s', mid, k)
    ensures a.PassOver? && a.mid == mid ==> s'.fleet == s.fleet
  {
    KeyStep(s, a, r, s', k);
    if mid in s'.objs {
      PresentBefore(s, a, r, s', mid);
      RecordStep(s, a, r, s', mid);
    }
    if a.PassOver? && a.mid == mid {
      assert MachineOk(s, mid);
      if r.deed.Released? {
        HoldsIsHeldBy(s.fleet, r.deed.node, r.deed.key);
        assert ReleaseEffect(s.fleet, r.fleet, r.deed.node, r.deed.key, r.deed.cleared);
      }
    }
  }

  lemma {:induction false} SpentThroughout(ss: seq<System>, acts: seq<Action>, rs: seq<Pass>,
                                           mid: Mid, k: Key, i: nat, j: nat)
    requires Behaviour(ss, acts, rs) && i <= j <= |acts| && Spent(ss[i], mid, k)
    ensures Spent(ss[j], mid, k)
  {
    if i < j {
      SpentThroughout(ss, acts, rs, mid, k, i, j - 1);
      SpentStepAt(ss, acts, rs, mid, k, j - 1);
    }
  }

  lemma SpentStepAt(ss: seq<System>, acts: seq<Action>, rs: seq<Pass>, mid: Mid, k: Key, i: nat)
    requires Behaviour(ss, acts, rs) && i < |acts| && Spent(ss[i], mid, k)
    ensures Spent(ss[i + 1], mid, k)
    ensures acts[i].PassOver? && acts[i].mid == mid ==> ss[i + 1].fleet == ss[i].fleet
  {
    assert Step(ss[i], acts[i], rs[i], ss[i + 1]);
    SpentStep(ss[i], acts[i], rs[i], ss[i + 1], mid, k);
  }

  /** A machine's release that reaches the fleet leaves nothing under its key. */
  lemma ReleaseSpends(ss: seq<System>, acts: seq<Action>, rs: seq<Pass>, mid: Mid, i: nat)
    requires Behaviour(ss, acts, rs) && i < |acts|
    requires acts[i].PassOver? && acts[i].mid == mid && LastDeed(ss[i + 1]).Released?
    ensures Spent(ss[i + 1], mid, LastDeed(ss[i + 1]).key)
  {
    var s, r := ss[i], rs[i];
    assert Step(s, acts[i], r, ss[i + 1]);
    assert MachineOk(s, mid) && r.deed == LastDeed(ss[i + 1]);
    OwnKey(s, mid);
    ReleaseReaches(s.objs[mid], s.fleet, acts[i].world, r);
    HoldsIsHeldBy(s.fleet, s.objs[mid].marks.nodeId, r.deed.key);
    PassRecord(s, mid, acts[i].world, r, ss[i + 1]);
  }

  lemma ReleaseReaches(o: Object, f: FleetState, w: World, r: Pass)
    requires Shape(o, f, w, r) && r.deed.Released?
    ensures o.deleting && o.marks.nodeId in f.nodes && o.marks.nodeId != "" && r.deed.key == ClaimKeyFor(o)
    ensures Holds(f, o.marks.nodeId, r.deed.key) ==> HeldBy(r.fleet, r.deed.key) == None
  {
    assert ReleaseEffect(f, r.fleet, r.deed.node, r.deed.key, r.deed.cleared);
  }

  lemma NothingMoreToRelease(ss: seq<System>, acts: seq<Action>, rs: seq<Pass>, mid: Mid, k: Key, i: nat, j: nat)
    requires Behaviour(ss, acts, rs) && i <= j < |acts| && Spent(ss[i], mid, k)
    requires acts[j].PassOver? && acts[j].mid == mid
    ensures ss[j + 1].fleet == ss[j].fleet
  {
    SpentThroughout(ss, acts, rs, mid, k, i, j);
    SpentStepAt(ss, acts, rs, mid, k, j);
  }

  /** Deleting again has the same effect on the fleet as deleting once: after a release of a
      machine has reached the fleet, its further delete passes, however often patches or replies
      are lost, leave the whole fleet exactly as they find it. A node claimed by another machine in
      the meantime stays that machine's. */
  lemma ReleaseHappensOnce(ss: seq<System>, acts: seq<Action>, mid: Mid, i: nat)
    requires IsRun(ss, acts) && i < |acts| - 1
    requires acts[i].PassOver? && acts[i].mid == mid && LastDeed(ss[i + 1]).Released?
    requires acts[|acts| - 1].PassOver? && acts[|acts| - 1].mid == mid
    ensures ss[|acts|].fleet == ss[|acts| - 1].fleet
  {
    var rs := RunIsBehaviour(ss, acts);
    ReleaseSpends(ss, acts, rs, mid, i);
    NothingMoreToRelease(ss, acts, rs, mid, LastDeed(ss[i + 1]).key, i + 1, |acts| - 1);
  }

  /** Whatever it does, a pass changes no other key's claim. */
  lemma PassesKeepToTheirKey(ss: seq<System>, acts: seq<Action>, mid: Mid, w: World, k: Key)
    requires IsRun(ss, acts) && acts != [] && acts[|acts| - 1] == PassOver(mid, w)
    requires mid in ss[|acts| - 1].objs && k != ClaimKeyFor(ss[|acts| - 1].objs[mid])
    ensures HeldBy(ss[|acts|].fleet, k) == HeldBy(ss[|acts| - 1].fleet, k)
  {
    var rs := RunIsBehaviour(ss, acts);
    assert Step(ss[|acts| - 1], acts[|acts| - 1], rs[|acts| - 1], ss[|acts|]);
  }
}
