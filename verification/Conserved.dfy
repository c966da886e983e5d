/** Where claims go: a claim stays in the fleet until its own machine's release or the node's
    removal; exactly which claims are left behind when a machine goes; and in calm runs the nodes
    held for machines are exactly those they have recorded. */
module Conserved {
  import opened Wrappers
  import opened Fleet
  import opened Connection
  import opened Machine
  import opened Transitions
  import opened Stages
  import opened System
  import History
  import Ownership

  /*** Every claim is accounted for by the trace ***/

  predicate ClearedAt(tr: seq<Entry>, j: nat, k: Key) {
    j < |tr| && tr[j].deed.Released? && tr[j].deed.key == k && tr[j].deed.cleared
  }

  predicate ClaimedAt(tr: seq<Entry>, i: nat, n: NodeId, k: Key) {
    i < |tr| && tr[i].deed == Claimed(n, k)
  }

  /** A claim of n under k reached the fleet, and no release of k has since. */
  ghost predicate Outstanding(tr: seq<Entry>, n: NodeId, k: Key) {
    exists i: nat :: ClaimedAt(tr, i, n, k) && forall j: nat :: i < j ==> !ClearedAt(tr, j, k)
  }

  ghost predicate ClaimLedger(s: System) {
    && (forall i: nat, n, k :: ClaimedAt(s.trace, i, n, k) ==> k in s.issued)
    && (forall n, k :: k in s.issued ==>
          (HeldBy(s.fleet, k) == Some(n) <==> Outstanding(s.trace, n, k) && n !in s.retired))
  }

  /** Appending an event that neither claims nor clears k leaves k's outstanding claims alone. */
  lemma OutstandingKept(tr: seq<Entry>, e: Entry, n: NodeId, k: Key)
    requires !(e.deed.Claimed? && e.deed.key == k && e.deed.node == n)
    requires !(e.deed.Released? && e.deed.key == k && e.deed.cleared)
    ensures Outstanding(tr + [e], n, k) <==> Outstanding(tr, n, k)
  {
    var tr' := tr + [e];
    forall i: nat ensures ClaimedAt(tr', i, n, k) <==> ClaimedAt(tr, i, n, k) {
      assert i < |tr| ==> tr'[i] == tr[i];
    }
    forall i: nat ensures ClearedAt(tr', i, k) <==> ClearedAt(tr, i, k) {
      assert i < |tr| ==> tr'[i] == tr[i];
    }
  }

  lemma OutstandingClaimed(tr: seq<Entry>, mid: Mid, n: NodeId, k: Key)
    ensures Outstanding(tr + [Entry(mid, Claimed(n, k))], n, k)
  {
    assert ClaimedAt(tr + [Entry(mid, Claimed(n, k))], |tr|, n, k);
  }

  lemma OutstandingCleared(tr: seq<Entry>, mid: Mid, n: NodeId, k: Key, m: NodeId)
    ensures !Outstanding(tr + [Entry(mid, Released(n, k, true))], m, k)
  {
    var tr' := tr + [Entry(mid, Released(n, k, true))];
    assert ClearedAt(tr', |tr|, k);
    assert forall i: nat :: ClaimedAt(tr', i, m, k) ==> i < |tr|;
  }

  /** One key's line of the ledger, through one pass. */
  lemma LedgerLine(s: System, mid: Mid, w: World, r: Pass, s': System, n: NodeId, k: Key)
    requires Step(s, PassOver(mid, w), r, s') && k in s.issued
    requires HeldBy(s.fleet, k) == Some(n) <==> Outstanding(s.trace, n, k) && n !in s.retired
    ensures HeldBy(s'.fleet, k) == Some(n) <==> Outstanding(s'.trace, n, k) && n !in s'.retired
  {
    var e := Entry(mid, r.deed);
    OwnKey(s, mid);
    Ownership.KeyStep(s, PassOver(mid, w), r, s', k);
    if r.deed.Claimed? && r.deed.key == k {
      ClaimLine(s, mid, w, r, s');
      OutstandingClaimed(s.trace, mid, r.deed.node, k);
      if n != r.deed.node { OutstandingKept(s.trace, e, n, k); }
    } else if r.deed.Released? && r.deed.key == k && r.deed.cleared {
      assert ReleaseEffect(s.fleet, r.fleet, r.deed.node, k, true);
      OutstandingCleared(s.trace, mid, r.deed.node, k, n);
    } else {
      OutstandingKept(s.trace, e, n, k);
      if r.deed.Released? {
        assert ReleaseEffect(s.fleet, r.fleet, r.deed.node, r.deed.key, r.deed.cleared);
      }
    }
  }

  lemma ClaimLine(s: System, mid: Mid, w: World, r: Pass, s': System)
    requires Step(s, PassOver(mid, w), r, s') && r.deed.Claimed?
    ensures HeldBy(s'.fleet, r.deed.key) == Some(r.deed.node) && r.deed.node !in s'.retired
    ensures HeldBy(s.fleet, r.deed.key).Some? ==> HeldBy(s.fleet, r.deed.key) == Some(r.deed.node)
  {
    assert ClaimEffect(s.fleet, r.fleet, r.deed.node, r.deed.key);
  }

  lemma ClaimKeyIssued(s: System, mid: Mid, w: World, r: Pass, s': System)
    requires Step(s, PassOver(mid, w), r, s') && ClaimLedger(s)
    ensures forall i: nat, n, k :: ClaimedAt(s'.trace, i, n, k) ==> k in s'.issued
  {
    OwnKey(s, mid);
    forall i: nat, n, k | ClaimedAt(s'.trace, i, n, k) ensures k in s'.issued {
      if i < |s.trace| {
        assert ClaimedAt(s.trace, i, n, k);
      } else {
        assert s'.trace[i] == Entry(mid, r.deed) && r.deed == Claimed(n, k);
      }
    }
  }

  lemma LedgerAfterPass(s: System, mid: Mid, w: World, r: Pass, s': System)
    requires Step(s, PassOver(mid, w), r, s') && ClaimLedger(s)
    ensures ClaimLedger(s')
  {
    ClaimKeyIssued(s, mid, w, r, s');
    forall n, k | k in s'.issued
      ensures HeldBy(s'.fleet, k) == Some(n) <==> Outstanding(s'.trace, n, k) && n !in s'.retired
    {
      LedgerLine(s, mid, w, r, s', n, k);
    }
  }

  lemma LedgerAfterOther(s: System, a: Action, r: Pass, s': System)
    requires Step(s, a, r, s') && !a.PassOver? && ClaimLedger(s)
    ensures ClaimLedger(s')
  {
    assert s'.trace == s.trace;
    forall n, k | k in s'.issued
      ensures HeldBy(s'.fleet, k) == Some(n) <==> Outstanding(s'.trace, n, k) && n !in s'.retired
    {
      if k in s.issued {
        if a.NodeRemoved? { RemoveNodeSound(s.fleet, a.node); }
      } else {
        assert HeldBy(s'.fleet, k) == None;
      }
    }
  }

  lemma LedgerStepAt(ss: seq<System>, acts: seq<Action>, rs: seq<Pass>, i: nat)
    requires Behaviour(ss, acts, rs) && i < |acts| && ClaimLedger(ss[i])
    ensures ClaimLedger(ss[i + 1])
  {
    assert Step(ss[i], acts[i], rs[i], ss[i + 1]);
    if acts[i].PassOver? {
      LedgerAfterPass(ss[i], acts[i].mid, acts[i].world, rs[i], ss[i + 1]);
    } else {
      LedgerAfterOther(ss[i], acts[i], rs[i], ss[i + 1]);
    }
  }

  lemma {:induction false} LedgerAlong(ss: seq<System>, acts: seq<Action>, rs: seq<Pass>, i: nat)
    requires Behaviour(ss, acts, rs) && i <= |acts|
    ensures ClaimLedger(ss[i])
  {
    if i > 0 {
      LedgerAlong(ss, acts, rs, i - 1);
      LedgerStepAt(ss, acts, rs, i - 1);
    }
  }

  /** In every run and for every UID ever issued: the fleet holds a node under it exactly when a
      claim of that node under it has reached the fleet, no release of it has since, and the node
      has not been removed. Lost patches and replies make no difference to the fleet. */
  lemma ClaimsAreConserved(ss: seq<System>, acts: seq<Action>, n: NodeId, k: Key)
    requires IsRun(ss, acts) && k in ss[|acts|].issued
    ensures HeldBy(ss[|acts|].fleet, k) == Some(n) <==>
            Outstanding(ss[|acts|].trace, n, k) && n !in ss[|acts|].retired
  {
    var rs := RunIsBehaviour(ss, acts);
    LedgerAlong(ss, acts, rs, |acts|);
  }

  /*** Claims left behind ***/

  /** The UID's machine is gone, or goes by another claim key. */
  predicate Orphan(s: System, k: Key) {
    k in s.issued && (s.issued[k] in s.objs ==> ClaimKeyFor(s.objs[s.issued[k]]) != k)
  }

  lemma OrphanStep(ss: seq<System>, acts: seq<Action>, rs: seq<Pass>, i: nat, k: Key, n: NodeId)
    requires Behaviour(ss, acts, rs) && i < |acts| && Orphan(ss[i], k)
    ensures Orphan(ss[i + 1], k)
    ensures HeldBy(ss[i + 1].fleet, k) == Some(n) <==> HeldBy(ss[i].fleet, k) == Some(n) && n !in ss[i + 1].retired
    ensures n in ss[i].retired ==> n in ss[i + 1].retired
  {
    var s, a, r, s' := ss[i], acts[i], rs[i], ss[i + 1];
    assert Step(s, a, r, s');
    Ownership.KeyStep(s, a, r, s', k);
    OrphanStays(s, a, r, s', k);
    if a.PassOver? { OwnKey(s, a.mid); }
  }

  lemma OrphanStays(s: System, a: Action, r: Pass, s': System, k: Key)
    requires Step(s, a, r, s') && Orphan(s, k)
    ensures Orphan(s', k)
  {
    var mid := s.issued[k];
    if mid in s'.objs {
      Ownership.PresentBefore(s, a, r, s', mid);
      assert MachineOk(s, mid);
      if a.PassOver? && a.mid == mid {
        ClaimRecordKept(s.objs[mid], s.fleet, a.world, r);
      }
    }
  }

  lemma {:induction false} OrphanThroughout(ss: seq<System>, acts: seq<Action>, rs: seq<Pass>,
                                            i: nat, j: nat, k: Key, n: NodeId)
    requires Behaviour(ss, acts, rs) && i <= j <= |acts| && Orphan(ss[i], k) && Inv(ss[i])
    ensures Orphan(ss[j], k)
    ensures HeldBy(ss[j].fleet, k) == Some(n) <==> HeldBy(ss[i].fleet, k) == Some(n) && n !in ss[j].retired
  {
    if i < j {
      OrphanThroughout(ss, acts, rs, i, j - 1, k, n);
      OrphanStep(ss, acts, rs, j - 1, k, n);
    }
  }

  /** Action i is a claim of n for the machine, whose patch or whose reply was lost. */
  ghost predicate LostClaimAt(ss: seq<System>, acts: seq<Action>, i: nat, mid: Mid, n: NodeId, k: Key) {
    && History.ClaimAt(ss, acts, i, mid, n, k)
    && (!acts[i].world.patchKept || acts[i].world.fault.ReplyLost?)
  }

  /** Some pass over the machine before action i claimed n under k. */
  ghost predicate ClaimedBefore(ss: seq<System>, acts: seq<Action>, i: nat, mid: Mid, n: NodeId, k: Key) {
    exists j: nat :: j < i && History.ClaimAt(ss, acts, j, mid, n, k)
  }

  /** A claim that is neither lost on the way back nor in the patch is recorded. */
  lemma KeptClaimRecords(ss: seq<System>, acts: seq<Action>, rs: seq<Pass>, i: nat, mid: Mid, n: NodeId, k: Key)
    requires Behaviour(ss, acts, rs) && i < |acts| && History.ClaimAt(ss, acts, i, mid, n, k)
    ensures k in ss[i].issued && ss[i].issued[k] == mid
    ensures HeldBy(ss[i + 1].fleet, k) == Some(n) && n != "" && n !in ss[i + 1].retired
    ensures HeldBy(ss[i].fleet, k).Some? ==> HeldBy(ss[i].fleet, k) == Some(n)
    ensures mid in ss[i + 1].objs && !acts[i].world.fault.RequestLost?
    ensures acts[i].world.patchKept && acts[i].world.fault.Clean? ==> ss[i + 1].objs[mid].marks.nodeId == n
  {
    var s, w, r, s' := ss[i], acts[i].world, rs[i], ss[i + 1];
    assert Step(s, acts[i], r, s') && r.deed == LastDeed(s');
    OwnKey(s, mid);
    ClaimLine(s, mid, w, r, s');
    assert !s.objs[mid].deleting && !r.obj.deleting;
  }

  /** Up to a state in which the machine has recorded nothing, every claim made for it was lost. */
  lemma UnrecordedClaimsWereLost(ss: seq<System>, acts: seq<Action>, rs: seq<Pass>,
                                 i: nat, mid: Mid, j: nat, n: NodeId, k: Key)
    requires Behaviour(ss, acts, rs) && j < i <= |acts|
    requires mid in ss[i].objs && ss[i].objs[mid].marks.nodeId == ""
    requires History.ClaimAt(ss, acts, j, mid, n, k)
    ensures LostClaimAt(ss, acts, j, mid, n, k)
  {
    KeptClaimRecords(ss, acts, rs, j, mid, n, k);
    if acts[j].world.patchKept && acts[j].world.fault.Clean? {
      RecordedOnward(ss, acts, rs, j + 1, i, mid);
    }
  }

  lemma RecordedOnward(ss: seq<System>, acts: seq<Action>, rs: seq<Pass>, i: nat, j: nat, mid: Mid)
    requires Behaviour(ss, acts, rs) && i <= j <= |acts| && mid in ss[i].objs && mid in ss[j].objs
    requires ss[i].objs[mid].marks.nodeId != ""
    ensures ss[j].objs[mid].marks.nodeId != ""
  {
    if i < j {
      Ownership.RecordThroughout(ss, acts, rs, mid, i, j);
    }
  }

  /** A claim under k is only ever made once k has been issued. */
  lemma {:induction false} NoClaimBeforeIssue(ss: seq<System>, acts: seq<Action>, rs: seq<Pass>,
                                              i: nat, j: nat, mid: Mid, n: NodeId, k: Key)
    requires Behaviour(ss, acts, rs) && j < i <= |acts| && History.ClaimAt(ss, acts, j, mid, n, k)
    ensures k in ss[i].issued && ss[i].issued[k] == mid
  {
    assert Step(ss[i - 1], acts[i - 1], rs[i - 1], ss[i]);
    if j + 1 < i {
      NoClaimBeforeIssue(ss, acts, rs, i - 1, j, mid, n, k);
    } else {
      KeptClaimRecords(ss, acts, rs, j, mid, n, k);
    }
  }

  /** What one step does to the claim of a machine that has recorded nothing before or after it. */
  lemma UnrecordedStep(ss: seq<System>, acts: seq<Action>, rs: seq<Pass>, i: nat, mid: Mid, n: NodeId, k: Key)
    requires Behaviour(ss, acts, rs) && i < |acts| && k in ss[i].issued && ss[i].issued[k] == mid
    requires mid in ss[i].objs && ss[i].objs[mid].marks.nodeId == ""
    ensures HeldBy(ss[i + 1].fleet, k) == Some(n) <==>
      && (HeldBy(ss[i].fleet, k) == Some(n) || History.ClaimAt(ss, acts, i, mid, n, k))
      && n !in ss[i + 1].retired
    ensures n in ss[i].retired ==> n in ss[i + 1].retired
  {
    var s, a, r, s' := ss[i], acts[i], rs[i], ss[i + 1];
    assert Step(s, a, r, s') && (a.PassOver? ==> r.deed == LastDeed(s'));
    assert MachineOk(s, mid);
    Ownership.KeyStep(s, a, r, s', k);
    if History.ClaimAt(ss, acts, i, mid, n, k) {
      KeptClaimRecords(ss, acts, rs, i, mid, n, k);
    }
  }

  /** While a machine has recorded nothing, its UID holds n exactly when one of its passes has
      claimed n under it and n has not been removed. */
  lemma {:induction false} HeldIffClaimed(ss: seq<System>, acts: seq<Action>, rs: seq<Pass>,
                                          i: nat, mid: Mid, n: NodeId, k: Key)
    requires Behaviour(ss, acts, rs) && i <= |acts| && k in ss[i].issued && ss[i].issued[k] == mid
    requires mid in ss[i].objs && ss[i].objs[mid].marks.nodeId == ""
    ensures HeldBy(ss[i].fleet, k) == Some(n) <==> ClaimedBefore(ss, acts, i, mid, n, k) && n !in ss[i].retired
  {
    if i > 0 {
      if k in ss[i - 1].issued {
        UnrecordedBefore(ss, acts, rs, i - 1, mid, k);
        HeldIffClaimed(ss, acts, rs, i - 1, mid, n, k);
        UnrecordedStep(ss, acts, rs, i - 1, mid, n, k);
        ClaimedBeforeStep(ss, acts, i - 1, mid, n, k);
      } else {
        NotYetClaimed(ss, acts, rs, i - 1, mid, n, k);
      }
    }
  }

  lemma ClaimedBeforeStep(ss: seq<System>, acts: seq<Action>, i: nat, mid: Mid, n: NodeId, k: Key)
    ensures ClaimedBefore(ss, acts, i + 1, mid, n, k) <==>
            ClaimedBefore(ss, acts, i, mid, n, k) || History.ClaimAt(ss, acts, i, mid, n, k)
  {
  }

  /** A key issued by action i is new: nothing is held under it, and no claim of it was ever made. */
  lemma NotYetClaimed(ss: seq<System>, acts: seq<Action>, rs: seq<Pass>, i: nat, mid: Mid, n: NodeId, k: Key)
    requires Behaviour(ss, acts, rs) && i < |acts| && k !in ss[i].issued && k in ss[i + 1].issued
    ensures HeldBy(ss[i + 1].fleet, k) == None && !ClaimedBefore(ss, acts, i + 1, mid, n, k)
  {
    JustIssuedAt(ss, acts, rs, i, k);
    forall j: nat | j <= i ensures !History.ClaimAt(ss, acts, j, mid, n, k) {
      if History.ClaimAt(ss, acts, j, mid, n, k) {
        ClaimedKeyIssued(ss, acts, rs, i, j, mid, n, k);
      }
    }
  }

  lemma ClaimedKeyIssued(ss: seq<System>, acts: seq<Action>, rs: seq<Pass>, i: nat, j: nat, mid: Mid, n: NodeId, k: Key)
    requires Behaviour(ss, acts, rs) && j <= i < |acts| && History.ClaimAt(ss, acts, j, mid, n, k)
    ensures k in ss[i].issued
  {
    if j < i {
      NoClaimBeforeIssue(ss, acts, rs, i, j, mid, n, k);
    } else {
      KeptClaimRecords(ss, acts, rs, j, mid, n, k);
    }
  }

  lemma UnrecordedBefore(ss: seq<System>, acts: seq<Action>, rs: seq<Pass>, i: nat, mid: Mid, k: Key)
    requires Behaviour(ss, acts, rs) && i < |acts|
    requires k in ss[i].issued && k in ss[i + 1].issued && ss[i + 1].issued[k] == mid
    requires mid in ss[i + 1].objs && ss[i + 1].objs[mid].marks.nodeId == ""
    ensures ss[i].issued[k] == mid && mid in ss[i].objs && ss[i].objs[mid].marks.nodeId == ""
  {
    var s, a, r, s' := ss[i], acts[i], rs[i], ss[i + 1];
    assert Step(s, a, r, s');
    Ownership.KeyStep(s, a, r, s', k);
    Ownership.PresentBefore(s, a, r, s', mid);
    Ownership.RecordStep(s, a, r, s', mid);
  }

  lemma JustIssuedAt(ss: seq<System>, acts: seq<Action>, rs: seq<Pass>, i: nat, k: Key)
    requires Behaviour(ss, acts, rs) && i < |acts| && k !in ss[i].issued && k in ss[i + 1].issued
    ensures HeldBy(ss[i + 1].fleet, k) == None
  {
    assert Step(ss[i], acts[i], rs[i], ss[i + 1]);
    JustIssued(ss[i], acts[i], rs[i], ss[i + 1], k);
  }

  lemma JustIssued(s: System, a: Action, r: Pass, s': System, k: Key)
    requires Step(s, a, r, s') && k !in s.issued && k in s'.issued
    ensures HeldBy(s'.fleet, k) == None
  {
  }

  /** A machine that has recorded no node goes, or is given another UID, by action i. From then on
      its old UID holds n, until n is removed, if and only if one of its passes claimed n under it;
      and each pass that did had its patch or its reply lost. */
  lemma AbandonedClaimLeaksIff(ss: seq<System>, acts: seq<Action>, i: nat, mid: Mid, n: NodeId)
    requires IsRun(ss, acts) && i < |acts| && mid in ss[i].objs && ss[i].objs[mid].marks.nodeId == ""
    requires mid in ss[i + 1].objs ==> ss[i + 1].objs[mid].uid != ss[i].objs[mid].uid
    ensures var k := ss[i].objs[mid].uid;
      && (HeldBy(ss[|acts|].fleet, k) == Some(n) <==>
            ClaimedBefore(ss, acts, i, mid, n, k) && n !in ss[|acts|].retired)
      && (forall j: nat :: j < i && History.ClaimAt(ss, acts, j, mid, n, k) ==> LostClaimAt(ss, acts, j, mid, n, k))
  {
    var rs := RunIsBehaviour(ss, acts);
    var k := ss[i].objs[mid].uid;
    DepartureStep(ss, acts, rs, i, mid, n);
    HeldIffClaimed(ss, acts, rs, i, mid, n, k);
    OrphanThroughout(ss, acts, rs, i + 1, |acts|, k, n);
    RetiredThroughout(ss, acts, rs, i, |acts|, n);
    forall j: nat | j < i && History.ClaimAt(ss, acts, j, mid, n, k) ensures LostClaimAt(ss, acts, j, mid, n, k) {
      UnrecordedClaimsWereLost(ss, acts, rs, i, mid, j, n, k);
    }
  }

  lemma DepartureStep(ss: seq<System>, acts: seq<Action>, rs: seq<Pass>, i: nat, mid: Mid, n: NodeId)
    requires Behaviour(ss, acts, rs) && i < |acts| && mid in ss[i].objs && ss[i].objs[mid].marks.nodeId == ""
    requires mid in ss[i + 1].objs ==> ss[i + 1].objs[mid].uid != ss[i].objs[mid].uid
    ensures var k := ss[i].objs[mid].uid;
      && k in ss[i].issued && ss[i].issued[k] == mid
      && Inv(ss[i + 1]) && Orphan(ss[i + 1], k)
      && HeldBy(ss[i + 1].fleet, k) == HeldBy(ss[i].fleet, k) && ss[i + 1].retired == ss[i].retired
  {
    var s, a, r, s' := ss[i], acts[i], rs[i], ss[i + 1];
    assert Step(s, a, r, s') && MachineOk(s, mid);
    Ownership.KeyStep(s, a, r, s', s.objs[mid].uid);
    Departure(s, a, r, s', mid);
  }

  /** Only a move, a deletion request or a delete pass takes an unrecorded machine's UID away. */
  lemma Departure(s: System, a: Action, r: Pass, s': System, mid: Mid)
    requires Step(s, a, r, s') && mid in s.objs && s.objs[mid].marks.nodeId == ""
    requires mid in s'.objs ==> s'.objs[mid].uid != s.objs[mid].uid
    ensures s'.retired == s.retired && !(a.PassOver? && r.deed.Claimed? && a.mid == mid)
    ensures mid in s'.objs ==> s'.objs[mid].marks == s.objs[mid].marks
    ensures a.PassOver? || s'.fleet == s.fleet
  {
    assert MachineOk(s, mid);
    if a.PassOver? {
      DepartureByPass(s, a.mid, a.world, r, s', mid);
    }
  }

  lemma DepartureByPass(s: System, worked: Mid, w: World, r: Pass, s': System, mid: Mid)
    requires Step(s, PassOver(worked, w), r, s') && mid in s.objs
    requires mid in s'.objs ==> s'.objs[mid].uid != s.objs[mid].uid
    ensures mid !in s'.objs && worked == mid && !r.deed.Claimed?
  {
    assert s'.objs == Written(s.objs, worked, r.obj, w.patchKept);
  }

  lemma {:induction false} RetiredThroughout(ss: seq<System>, acts: seq<Action>, rs: seq<Pass>,
                                             i: nat, j: nat, n: NodeId)
    requires Behaviour(ss, acts, rs) && i <= j <= |acts|
    ensures n in ss[i].retired ==> n in ss[j].retired
  {
    if i < j {
      RetiredThroughout(ss, acts, rs, i, j - 1, n);
      RetiredStep(ss, acts, rs, j - 1);
    }
  }

  lemma RetiredStep(ss: seq<System>, acts: seq<Action>, rs: seq<Pass>, i: nat)
    requires Behaviour(ss, acts, rs) && i < |acts|
    ensures ss[i].retired <= ss[i + 1].retired
  {
    assert Step(ss[i], acts[i], rs[i], ss[i + 1]);
  }

  /** A machine that has recorded a node goes by action i. From then on its claim key holds n, until
      n is removed, if and only if n is the recorded node, no release of the machine's had reached
      the fleet before, and its last pass found the connection gone for good. */
  lemma UnreleasedNodeLeaksIff(ss: seq<System>, acts: seq<Action>, i: nat, mid: Mid, n: NodeId)
    requires IsRun(ss, acts) && i < |acts| && mid in ss[i].objs && mid !in ss[i + 1].objs
    requires ss[i].objs[mid].marks.nodeId != ""
    ensures acts[i].PassOver? && acts[i].mid == mid
    ensures HeldBy(ss[|acts|].fleet, ss[i].objs[mid].marks.claimKey) == Some(n) <==>
      && n == ss[i].objs[mid].marks.nodeId && mid !in ss[i].released
      && FleetClientForDelete(acts[i].world.infra).Unconnected?
      && n !in ss[|acts|].retired
  {
    var rs := RunIsBehaviour(ss, acts);
    var k := ss[i].objs[mid].marks.claimKey;
    LastPass(ss, acts, rs, i, mid);
    OrphanThroughout(ss, acts, rs, i + 1, |acts|, k, n);
    RetiredThroughout(ss, acts, rs, i, |acts|, n);
  }

  lemma LastPass(ss: seq<System>, acts: seq<Action>, rs: seq<Pass>, i: nat, mid: Mid)
    requires Behaviour(ss, acts, rs) && i < |acts| && mid in ss[i].objs && mid !in ss[i + 1].objs
    requires ss[i].objs[mid].marks.nodeId != ""
    ensures acts[i].PassOver? && acts[i].mid == mid
    ensures Inv(ss[i + 1]) && Orphan(ss[i + 1], ss[i].objs[mid].marks.claimKey)
    ensures HeldBy(ss[i + 1].fleet, ss[i].objs[mid].marks.claimKey)
      == if mid in ss[i].released || ss[i].objs[mid].marks.nodeId in ss[i].retired
           || FleetClientForDelete(acts[i].world.infra).Connected?
         then None else Some(ss[i].objs[mid].marks.nodeId)
  {
    assert Step(ss[i], acts[i], rs[i], ss[i + 1]);
    OwnKey(ss[i], mid);
    assert MachineOk(ss[i], mid) && acts[i].PassOver? && acts[i].mid == mid;
    LastPassStep(ss[i], mid, acts[i].world, rs[i], ss[i + 1]);
  }

  lemma LastPassStep(s: System, mid: Mid, w: World, r: Pass, s': System)
    requires Step(s, PassOver(mid, w), r, s') && mid !in s'.objs && s.objs[mid].marks.nodeId != ""
    ensures HeldBy(s'.fleet, s.objs[mid].marks.claimKey)
      == if mid in s.released || s.objs[mid].marks.nodeId in s.retired || FleetClientForDelete(w.infra).Connected?
         then None else Some(s.objs[mid].marks.nodeId)
  {
    var k := s.objs[mid].marks.claimKey;
    assert MachineOk(s, mid) && Gone(r.obj);
    OwnKey(s, mid);
    Ownership.KeyStep(s, PassOver(mid, w), r, s', k);
    HoldsIsHeldBy(s'.fleet, s.objs[mid].marks.nodeId, k);
    assert GivesUpProperly(s.objs[mid], w, r) && s.objs[mid].deleting;
  }

  /*** Calm runs ***/

  /** Passes lose nothing: patches and replies arrive, and deletions find the connection usable or at
      worst unreadable for now. Other clients may claim and release, and nodes may come and go. */
  predicate Calm(s: System, a: Action) {
    a.PassOver? ==>
      && a.world.patchKept && a.world.fault != ReplyLost
      && (a.mid in s.objs && s.objs[a.mid].deleting ==>
            match FleetClientForDelete(a.world.infra)
            case Connected => true
            case Unconnected(e) => !IsPermanentlyUnresolvable(e))
  }

  ghost predicate CalmRun(ss: seq<System>, acts: seq<Action>) {
    && |ss| == |acts| + 1
    && forall i {:trigger acts[i]} :: 0 <= i < |acts| ==> Calm(ss[i], acts[i])
  }

  /** The key's claim, if it has one, belongs to its own live machine, which has recorded it. */
  ghost predicate Backed(s: System, k: Key)
    requires k in s.issued
  {
    HeldBy(s.fleet, k).Some? ==>
      && s.issued[k] in s.objs
      && s.objs[s.issued[k]].marks.claimKey == k && HeldBy(s.fleet, k) == Some(s.objs[s.issued[k]].marks.nodeId)
  }

  /** Released machines are gone, and every issued key is backed. */
  ghost predicate CalmInv(s: System) {
    && (forall mid :: mid in s.objs ==> mid !in s.released)
    && (forall k :: k in s.issued ==> Backed(s, k))
  }

  /** In a calm pass over it, a machine keeps its record in step with the fleet, and leaves as soon
      as it has released. */
  lemma CalmOwnPass(s: System, mid: Mid, w: World, r: Pass, s': System)
    requires Step(s, PassOver(mid, w), r, s') && Calm(s, PassOver(mid, w)) && mid !in s.released
    requires ClaimKeyFor(s.objs[mid]) in s.issued && Backed(s, ClaimKeyFor(s.objs[mid]))
    ensures mid in s'.objs ==> mid !in s'.released
    ensures Backed(s', ClaimKeyFor(s.objs[mid]))
  {
    assert MachineOk(s, mid);
    OwnKey(s, mid);
    var o := s.objs[mid];
    var k := ClaimKeyFor(o);
    Ownership.KeyStep(s, PassOver(mid, w), r, s', k);
    if mid in s'.objs {
      assert MachineOk(s', mid);
      if r.deed.Claimed? { ClaimLine(s, mid, w, r, s'); }
      CalmRecord(o, s.fleet, w, r);
    } else {
      assert GivesUpProperly(o, w, r) || o.marks.nodeId == "";
      HoldsIsHeldBy(s'.fleet, o.marks.nodeId, k);
    }
  }

  /** A calm pass that leaves the machine in place has not released, and a claim of it is recorded. */
  lemma CalmRecord(o: Object, f: FleetState, w: World, r: Pass)
    requires Shape(o, f, w, r) && Chain(o) && w.newId != "" && w.fault != ReplyLost && !Gone(r.obj)
    ensures !r.deed.Released?
    ensures r.deed.Claimed? ==> r.obj.marks.nodeId == r.deed.node && r.obj.marks.claimKey == r.deed.key
    ensures !r.deed.Claimed? ==> r.obj.marks.nodeId == o.marks.nodeId && r.obj.marks.claimKey == o.marks.claimKey
  {
    ChainKept(o, f, w, r);
  }

  lemma CalmPass(s: System, mid: Mid, w: World, r: Pass, s': System)
    requires Step(s, PassOver(mid, w), r, s') && Calm(s, PassOver(mid, w)) && CalmInv(s)
    ensures CalmInv(s')
  {
    OwnKey(s, mid);
    var key := ClaimKeyFor(s.objs[mid]);
    assert mid !in s.released && Backed(s, key);
    CalmOwnPass(s, mid, w, r, s');
    forall k | k in s'.issued && k != key ensures Backed(s', k) {
      assert Backed(s, k);
      BackedByOther(s, mid, w, r, s', k);
    }
  }

  /** A pass over one machine leaves the backing of every other key alone. */
  lemma BackedByOther(s: System, mid: Mid, w: World, r: Pass, s': System, k: Key)
    requires Step(s, PassOver(mid, w), r, s') && k in s.issued && k != ClaimKeyFor(s.objs[mid]) && Backed(s, k)
    ensures k in s'.issued && Backed(s', k)
  {
    OwnKey(s, mid);
    Ownership.KeyStep(s, PassOver(mid, w), r, s', k);
    if HeldBy(s.fleet, k).Some? {
      assert MachineOk(s, s.issued[k]);
      OwnKey(s, s.issued[k]);
      assert s.issued[k] != mid;
    }
  }

  lemma CalmOther(s: System, a: Action, r: Pass, s': System)
    requires Step(s, a, r, s') && !a.PassOver? && CalmInv(s)
    ensures CalmInv(s')
  {
    assert forall mid :: mid in s'.objs ==> mid !in s'.released;
    forall k | k in s'.issued ensures Backed(s', k) {
      if k in s.issued {
        BackedThroughOther(s, a, r, s', k);
      } else {
        JustIssued(s, a, r, s', k);
      }
    }
  }

  lemma BackedThroughOther(s: System, a: Action, r: Pass, s': System, k: Key)
    requires Step(s, a, r, s') && !a.PassOver? && k in s.issued && Backed(s, k)
    ensures k in s'.issued && Backed(s', k)
  {
    Ownership.KeyStep(s, a, r, s', k);
    if HeldBy(s'.fleet, k).Some? {
      assert MachineOk(s, s.issued[k]);
      RecordedStays(s, a, s', s.issued[k]);
    }
  }

  lemma RecordedStays(s: System, a: Action, s': System, mid: Mid)
    requires !a.PassOver? && OtherStep(s, a, s') && mid in s.objs && mid < s.born && s.objs[mid].finalizer
    ensures mid in s'.objs && s'.objs[mid].marks == s.objs[mid].marks
  {
  }

  lemma CalmStepAt(ss: seq<System>, acts: seq<Action>, rs: seq<Pass>, i: nat)
    requires Behaviour(ss, acts, rs) && CalmRun(ss, acts) && i < |acts| && CalmInv(ss[i])
    ensures CalmInv(ss[i + 1])
  {
    assert Step(ss[i], acts[i], rs[i], ss[i + 1]) && Calm(ss[i], acts[i]);
    if acts[i].PassOver? {
      CalmPass(ss[i], acts[i].mid, acts[i].world, rs[i], ss[i + 1]);
    } else {
      CalmOther(ss[i], acts[i], rs[i], ss[i + 1]);
    }
  }

  lemma {:induction false} CalmAlong(ss: seq<System>, acts: seq<Action>, rs: seq<Pass>, i: nat)
    requires Behaviour(ss, acts, rs) && CalmRun(ss, acts) && i <= |acts|
    ensures CalmInv(ss[i])
  {
    if i > 0 {
      CalmAlong(ss, acts, rs, i - 1);
      CalmStepAt(ss, acts, rs, i - 1);
    }
  }

  /** The nodes recorded by live machines and still enrolled. */
  function RecordedNodes(s: System): set<NodeId> {
    (set mid | mid in s.objs && s.objs[mid].marks.nodeId != "" :: s.objs[mid].marks.nodeId) - s.retired
  }

  /** The nodes held under UIDs issued to machines, and those held by anybody else. */
  function HeldForMachines(s: System): set<NodeId> {
    set n | n in s.fleet.nodes && s.fleet.nodes[n].claimKey.Some? && s.fleet.nodes[n].claimKey.value in s.issued
  }

  function HeldByOthers(s: System): set<NodeId> {
    set n | n in s.fleet.nodes && s.fleet.nodes[n].claimKey.Some? && s.fleet.nodes[n].claimKey.value !in s.issued
  }

  lemma HeldAreRecorded(s: System)
    requires Inv(s) && CalmInv(s)
    ensures HeldForMachines(s) == RecordedNodes(s)
  {
    forall n ensures n in HeldForMachines(s) <==> n in RecordedNodes(s) {
      if n in HeldForMachines(s) {
        var k := s.fleet.nodes[n].claimKey.value;
        assert HeldBy(s.fleet, k) == Some(n) && Backed(s, k);
        assert s.objs[s.issued[k]].marks.nodeId == n;
      }
      if n in RecordedNodes(s) {
        var mid :| mid in s.objs && s.objs[mid].marks.nodeId == n && n != "";
        assert MachineOk(s, mid);
      }
    }
  }

  lemma HeldParts(s: System)
    ensures HeldNodes(s.fleet) == HeldForMachines(s) + HeldByOthers(s) && HeldForMachines(s) !! HeldByOthers(s)
  {
  }

  lemma HeldSplit(s: System)
    ensures FreeNodes(s.fleet) == s.fleet.nodes.Keys - HeldForMachines(s) - HeldByOthers(s)
    ensures |FreeNodes(s.fleet)| + |HeldForMachines(s)| + |HeldByOthers(s)| == |s.fleet.nodes|
  {
    NodesSplit(s.fleet);
    HeldParts(s);
    SplitOff(FreeNodes(s.fleet), HeldForMachines(s), HeldByOthers(s), s.fleet.nodes.Keys);
  }

  lemma SplitOff(free: set<NodeId>, a: set<NodeId>, b: set<NodeId>, all: set<NodeId>)
    requires free !! a + b && free + (a + b) == all && a !! b
    ensures free == all - a - b
    ensures |a + b| == |a| + |b|
  {
  }

  /** In every calm run the nodes held under machines' UIDs are exactly those that live machines have
      recorded; these, the ones other clients hold and the free ones are all the nodes; and once
      every machine is gone no node is held for one. */
  lemma NothingLeaks(ss: seq<System>, acts: seq<Action>)
    requires IsRun(ss, acts) && CalmRun(ss, acts)
    ensures var s := ss[|acts|];
      && HeldForMachines(s) == RecordedNodes(s)
      && FreeNodes(s.fleet) == s.fleet.nodes.Keys - RecordedNodes(s) - HeldByOthers(s)
      && |FreeNodes(s.fleet)| + |RecordedNodes(s)| + |HeldByOthers(s)| == |s.fleet.nodes|
      && (s.objs == map[] ==> FreeNodes(s.fleet) == s.fleet.nodes.Keys - HeldByOthers(s))
  {
    var rs := RunIsBehaviour(ss, acts);
    CalmAlong(ss, acts, rs, |acts|);
    HeldAreRecorded(ss[|acts|]);
    HeldSplit(ss[|acts|]);
    assert ss[|acts|].objs == map[] ==> RecordedNodes(ss[|acts|]) == {};
  }
}
