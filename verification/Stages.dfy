/** The stage chain: what the markers of one machine say about each other, kept by every pass. */
module Stages {
  import opened Wrappers
  import opened Fleet
  import opened Machine
  import opened Transitions

  /** Each stage's marker implies the earlier ones; command IDs come with their marker; an open
      retry window excludes a pending reboot and a provisioned machine; provisioned and Ready
      agree, and imply every stage and the provider ID of the claimed node. The finalizer guards
      a recorded node until deletion finishes. */
  ghost predicate Chain(o: Object) {
    var m := o.marks;
    && o.uid != ""
    && (m.nodeId != "" <==> m.claimKey != "")
    && (m.applied ==> m.nodeId != "")
    && (m.applied <==> m.applyCommand != "")
    && (!m.rebootAt.Absent? ==> m.applied)
    && (!m.rebootAt.Absent? <==> m.rebootCommand != "")
    && (!m.retryAt.Absent? ==> m.nodeId != "" && m.rebootAt.Absent? && !o.status.provisioned)
    && (m.nodeId != "" && !o.deleting ==> o.finalizer)
    && !m.rebootAt.Garbled? && !m.retryAt.Garbled?
    && (o.providerID.Some? ==> m.nodeId != "" && o.providerID.value == PROVIDER_ID_PREFIX + m.nodeId)
    && (o.status.provisioned <==> o.status.ready.ReadyTrue?)
    && (o.status.provisioned ==> !m.rebootAt.Absent? && o.providerID.Some?)
  }

  /** A machine as its owner creates it. */
  function Fresh(uid: Uid, group: string): Object {
    Object(uid, group, false, false, NO_MARKS, None, NEW_STATUS)
  }

  lemma FreshChain(uid: Uid, group: string)
    requires uid != ""
    ensures Chain(Fresh(uid, group))
  {
  }

  /** Every pass keeps the chain, given that queued commands get a non-empty ID. */
  lemma ChainKept(o: Object, f: FleetState, w: World, r: Pass)
    requires Chain(o) && Shape(o, f, w, r) && w.newId != ""
    ensures Chain(r.obj)
  {
    match r.deed {
      case Idle =>
      case Claimed(_, _) =>
      case ApplyQueued(_, _, _, _) =>
      case ApplyRefused(_, _) =>
      case RebootQueued(_, _, _, _) =>
      case RebootRefused(_, _) =>
      case Rejoined(_, _) =>
      case Released(_, _, _) =>
    }
  }

  /** The claim, once recorded, is never changed by a pass, and neither is the provider ID. */
  lemma ClaimRecordKept(o: Object, f: FleetState, w: World, r: Pass)
    requires Chain(o) && Shape(o, f, w, r) && w.newId != ""
    ensures o.marks.nodeId != "" ==>
              r.obj.marks.nodeId == o.marks.nodeId && r.obj.marks.claimKey == o.marks.claimKey
    ensures ClaimKeyFor(r.obj) == ClaimKeyFor(o)
    ensures o.providerID.Some? ==> r.obj.providerID == o.providerID
  {
    ChainKept(o, f, w, r);
  }
}
