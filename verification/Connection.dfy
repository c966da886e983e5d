/** Finding the fleet: group names, and the AuroraBoot connection named by the KairosFleetCluster. */
module Connection {
  import opened Wrappers
  import opened Clock
  import opened Fleet

  /*** Group resolution ***/

  datatype Group = Group(id: GroupId, name: string)

  /** The first listed group satisfying the match decides. */
  ghost predicate FirstNamed(groups: seq<Group>, ref: string, i: nat) {
    i < |groups| && groups[i].name == ref && forall j :: 0 <= j < i ==> groups[j].name != ref
  }

  ghost predicate Listed(groups: seq<Group>, id: GroupId) {
    exists i :: 0 <= i < |groups| && groups[i].id == id
  }

  ghost predicate Named(groups: seq<Group>, ref: string) {
    exists i :: 0 <= i < |groups| && groups[i].name == ref
  }

  /** g is the group meant by ref: the one with that ID, or else the first of that name. */
  ghost predicate IsGroup(groups: seq<Group>, ref: string, g: GroupId) {
    if Listed(groups, ref) then g == ref
    else exists i: nat :: FirstNamed(groups, ref, i) && groups[i].id == g
  }

  function FindName(groups: seq<Group>, ref: string): (r: Option<GroupId>)
    ensures r.Some? ==> exists i: nat :: FirstNamed(groups, ref, i) && groups[i].id == r.value
    ensures r == None <==> !Named(groups, ref)
  {
    if groups == [] then None
    else if groups[0].name == ref then
      assert FirstNamed(groups, ref, 0);
      Some(groups[0].id)
    else
      var rest := FindName(groups[1..], ref);
      assert rest.Some? ==> (
        var i: nat :| FirstNamed(groups[1..], ref, i) && groups[1..][i].id == rest.value;
        assert forall j :: 0 < j < |groups| ==> groups[j] == groups[1..][j - 1];
        FirstNamed(groups, ref, i + 1) && groups[i + 1].id == rest.value);
      assert Named(groups, ref) ==> Named(groups[1..], ref) by {
        if Named(groups, ref) {
          var i :| 0 <= i < |groups| && groups[i].name == ref;
          assert groups[1..][i - 1].name == ref;
        }
      }
      rest
  }

  function ResolveGroup(groups: seq<Group>, ref: string): Reply<GroupId> {
    if exists i :: 0 <= i < |groups| && groups[i].id == ref then Ok(ref)
    else
      match FindName(groups, ref)
      case Some(id) => Ok(id)
      case None => Err(NOT_FOUND)
  }

  /** The lookup finds the group that is meant, and fails as not found when none is. */
  lemma GroupIsResolved(groups: seq<Group>, ref: string)
    ensures forall g :: IsGroup(groups, ref, g) <==> ResolveGroup(groups, ref) == Ok(g)
    ensures ResolveGroup(groups, ref).Ok? || ResolveGroup(groups, ref) == Err(NOT_FOUND)
    ensures ResolveGroup(groups, ref).Err? <==> !Listed(groups, ref) && !Named(groups, ref)
  {
    forall g | IsGroup(groups, ref, g) ensures ResolveGroup(groups, ref) == Ok(g) {
      if !Listed(groups, ref) {
        var i: nat :| FirstNamed(groups, ref, i) && groups[i].id == g;
        assert Named(groups, ref);
        var j: nat :| FirstNamed(groups, ref, j) && groups[j].id == FindName(groups, ref).value;
        assert !(i < j) && !(j < i);
      }
    }
  }

  /** The two passes over the group list: an exact ID first, then a name. */
  method ResolveGroupID(groups: seq<Group>, ref: string) returns (reply: Reply<GroupId>)
    ensures reply == ResolveGroup(groups, ref)
    ensures reply.Ok? ==> Listed(groups, reply.value)
    ensures Listed(groups, ref) ==> reply == Ok(ref)
    ensures forall i: nat :: !Listed(groups, ref) && FirstNamed(groups, ref, i) ==> reply == Ok(groups[i].id)
    ensures reply == Err(NOT_FOUND) <==> !Listed(groups, ref) && !Named(groups, ref)
  {
    for i := 0 to |groups|
      invariant forall j :: 0 <= j < i ==> groups[j].id != ref
    {
      if groups[i].id == ref {
        return Ok(groups[i].id);
      }
    }
    for i := 0 to |groups|
      invariant forall j :: 0 <= j < i ==> groups[j].name != ref
    {
      if groups[i].name == ref {
        assert FirstNamed(groups, ref, i);
        return Ok(groups[i].id);
      }
    }
    return Err(NOT_FOUND);
  }

  /** Resolving an answer again, against the same list, returns it unchanged. */
  lemma ResolveIdempotent(groups: seq<Group>, ref: string)
    requires ResolveGroup(groups, ref).Ok?
    ensures ResolveGroup(groups, ResolveGroup(groups, ref).value) == ResolveGroup(groups, ref)
  {
    var id := ResolveGroup(groups, ref).value;
    if id != ref {
      var i: nat :| FirstNamed(groups, ref, i) && groups[i].id == id;
      assert Listed(groups, id);
    }
  }

  /*** The AuroraBoot connection ***/

  /** What one read of an API object returns. */
  datatype Read<+T> = Found(value: T) | Missing | Unreadable

  /** A KairosFleetCluster's connection: its URL and what reading its admin-token Secret gives
      (the token, empty when the Secret has no such key). */
  datatype Link = Link(url: string, token: Read<string>)

  datatype ConnectionError = ObjectMissing | ReadFailed | ConnectionIncomplete

  datatype Resolved = Connected | Unconnected(error: ConnectionError)

  function ResolveFleetClient(link: Link): Resolved {
    if link.url == "" then Unconnected(ConnectionIncomplete)
    else
      match link.token
      case Missing => Unconnected(ObjectMissing)
      case Unreadable => Unconnected(ReadFailed)
      case Found(token) => if token == "" then Unconnected(ConnectionIncomplete) else Connected
  }

  /** Everything a connection needs is there. */
  predicate Connects(infra: Read<Link>) {
    && infra.Found? && infra.value.url != ""
    && infra.value.token.Found? && infra.value.token.value != ""
  }

  predicate IsPermanentlyUnresolvable(e: ConnectionError) {
    e == ObjectMissing || e == ConnectionIncomplete
  }

  /** fleetClientFor: every failure folds into "wait and retry". */
  datatype NormalClient = Ready | NotYet(requeueAfter: int, failed: bool)

  function FleetClientFor(infra: Read<Link>): NormalClient {
    match infra
    case Missing => NotYet(WAIT_FOR_REJOIN, false)
    case Unreadable => NotYet(WAIT_FOR_REJOIN, true)
    case Found(link) => if ResolveFleetClient(link).Connected? then Ready else NotYet(WAIT_FOR_CAPACITY, false)
  }

  /** fleetClientForDelete: every failure is reported. */
  function FleetClientForDelete(infra: Read<Link>): Resolved {
    match infra
    case Missing => Unconnected(ObjectMissing)
    case Unreadable => Unconnected(ReadFailed)
    case Found(link) => ResolveFleetClient(link)
  }

  /** Both paths connect on the same evidence, and a failure is permanent exactly when no read
      failed: some object is absent, the URL is empty, or the token is. */
  lemma ConnectionAgreement(infra: Read<Link>)
    ensures FleetClientFor(infra).Ready? <==> FleetClientForDelete(infra).Connected?
    ensures FleetClientForDelete(infra).Connected? <==> Connects(infra)
    ensures FleetClientForDelete(infra).Unconnected? ==>
      (IsPermanentlyUnresolvable(FleetClientForDelete(infra).error) <==>
        !infra.Unreadable? && (infra.Found? && infra.value.url != "" ==> !infra.value.token.Unreadable?))
  {
  }

  /*** The KairosFleetCluster controller ***/

  datatype Readiness = Unreported | NotReady | IsReady

  /** The KairosFleetCluster object and its reconciler, which owns no external infrastructure. */
  class FleetCluster {
    var finalizer: bool
    var deleting: bool
    var provisioned: bool
    var ready: Readiness
    var endpointHost: string

    constructor (host: string)
      ensures !finalizer && !deleting && !provisioned && ready == Unreported && endpointHost == host
    {
      finalizer, deleting, provisioned, ready, endpointHost := false, false, false, Unreported, host;
    }

    /** One unpaused pass over an owned cluster. A deleted cluster loses its finalizer at once,
        whatever the connection and however many machines still need it. */
    method Reconcile(link: Link) returns (requeueAfter: int)
      modifies this`finalizer, this`provisioned, this`ready
      ensures finalizer == !deleting
      ensures deleting ==> provisioned == old(provisioned) && ready == old(ready) && requeueAfter == 0
      ensures !deleting ==> (provisioned <==> Connects(Found(link)) && endpointHost != "")
      ensures !deleting ==> ready == (if provisioned then IsReady else NotReady)
      ensures requeueAfter == if !deleting && !Connects(Found(link)) then 30 * SECOND else 0
    {
      if !finalizer {
        finalizer := true;
      }
      if deleting {
        finalizer := false;
        return 0;
      }
      if ResolveFleetClient(link).Unconnected? {
        ready, provisioned := NotReady, false;
        return 30 * SECOND;
      }
      if endpointHost == "" {
        ready, provisioned := NotReady, false;
        return 0;
      }
      provisioned, ready := true, IsReady;
      return 0;
    }
  }
}
