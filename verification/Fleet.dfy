/** The fleet side: nodes, group pools and the claim table of AuroraBoot, as values.
    Every handler is a function from a fleet to the next fleet and a reply. */
module Fleet {
  import opened Wrappers

  type NodeId = string
  type GroupId = string
  type Key = string

  datatype NodePhase = NodePending | Registered | Online | Offline

  datatype CommandKind = ApplyCloudConfig | RebootNode | ResetNode

  datatype CommandPhase = CommandPending | Delivered | Running | Completed | Failed | Expired

  /** A queued command. `config` is the cloud-config argument; empty for other kinds. */
  datatype Command = Command(id: string, kind: CommandKind, config: string,
                             phase: CommandPhase, result: string, createdAt: Option<int>)

  datatype Node = Node(id: NodeId, group: GroupId, phase: NodePhase,
                       claimKey: Option<Key>, heartbeat: Option<int>, commands: seq<Command>)

  datatype ErrorCode = Blank | NoCapacityCode | ClaimMismatchCode | OtherCode(text: string)

  datatype Error = ApiError(status: int, code: ErrorCode) | TransportError

  datatype Reply<+T> = Ok(value: T) | Err(error: Error)

  predicate IsNoCapacity(e: Error) { e.ApiError? && e.code == NoCapacityCode }
  predicate IsNotFound(e: Error) { e.ApiError? && e.status == 404 }
  predicate IsClaimMismatch(e: Error) { e.ApiError? && e.code == ClaimMismatchCode }

  const NO_CAPACITY := ApiError(409, NoCapacityCode)
  const NOT_FOUND := ApiError(404, Blank)
  const CLAIM_MISMATCH := ApiError(409, ClaimMismatchCode)

  /** `pool[g]` queues the unclaimed nodes of group g; `byClaim` finds a key's node again. */
  datatype FleetState = FleetState(nodes: map<NodeId, Node>,
                                   pool: map<GroupId, seq<NodeId>>,
                                   byClaim: map<Key, NodeId>)

  function PoolOf(f: FleetState, g: GroupId): seq<NodeId> {
    if g in f.pool then f.pool[g] else []
  }

  predicate NoDuplicates<T(==)>(s: seq<T>) {
    forall i, j :: 0 <= i < j < |s| ==> s[i] != s[j]
  }

  /** The three tables describe one claim relation: `byClaim` inverts the nodes' claim keys,
      and each pool lists exactly the unclaimed nodes of its group, once. */
  ghost predicate Valid(f: FleetState) {
    && (forall n :: n in f.nodes ==> f.nodes[n].id == n && n != "")
    && (forall k :: k in f.byClaim ==>
          f.byClaim[k] in f.nodes && f.nodes[f.byClaim[k]].claimKey == Some(k))
    && (forall n :: n in f.nodes && f.nodes[n].claimKey.Some? ==>
          f.nodes[n].claimKey.value in f.byClaim && f.byClaim[f.nodes[n].claimKey.value] == n)
    && (forall g :: g in f.pool ==> NoDuplicates(f.pool[g]))
    && (forall g, n :: g in f.pool && n in f.pool[g] ==>
          n in f.nodes && f.nodes[n].group == g && f.nodes[n].claimKey == None)
    && (forall n :: n in f.nodes && f.nodes[n].claimKey == None ==>
          f.nodes[n].group in f.pool && n in f.pool[f.nodes[n].group])
  }

  /** Node n is claimed under key k. */
  predicate Holds(f: FleetState, n: NodeId, k: Key) {
    n in f.nodes && f.nodes[n].claimKey == Some(k)
  }

  /** The node claimed under k, if any. */
  function HeldBy(f: FleetState, k: Key): Option<NodeId> {
    if k in f.byClaim then Some(f.byClaim[k]) else None
  }

  function FreeNodes(f: FleetState): set<NodeId> {
    set n | n in f.nodes && f.nodes[n].claimKey == None
  }

  function HeldNodes(f: FleetState): set<NodeId> {
    set n | n in f.nodes && f.nodes[n].claimKey.Some?
  }

  function FreeIn(f: FleetState, g: GroupId): set<NodeId> {
    set n | n in f.nodes && f.nodes[n].claimKey == None && f.nodes[n].group == g
  }

  function Claim(f: FleetState, g: GroupId, k: Key): (FleetState, Reply<Node>)
    requires Valid(f)
  {
    if k in f.byClaim then
      (f, Ok(f.nodes[f.byClaim[k]]))
    else
      var queue := PoolOf(f, g);
      if |queue| == 0 then
        (f, Err(NO_CAPACITY))
      else
        var id := queue[0];
        assert g in f.pool && id in f.pool[g];
        var node := f.nodes[id].(claimKey := Some(k));
        (FleetState(f.nodes[id := node], f.pool[g := queue[1..]], f.byClaim[k := id]), Ok(node))
  }

  function GetNode(f: FleetState, n: NodeId): Reply<Node> {
    if n in f.nodes then Ok(f.nodes[n]) else Err(NOT_FOUND)
  }

  function GetCommands(f: FleetState, n: NodeId): Reply<seq<Command>> {
    if n in f.nodes then Ok(f.nodes[n].commands) else Err(NOT_FOUND)
  }

  function CreateCommand(f: FleetState, n: NodeId, c: Command): (FleetState, Reply<Command>) {
    if n in f.nodes then
      (f.(nodes := f.nodes[n := f.nodes[n].(commands := f.nodes[n].commands + [c])]), Ok(c))
    else
      (f, Err(NOT_FOUND))
  }

  function Release(f: FleetState, n: NodeId, k: Key): (FleetState, Reply<bool>) {
    if n !in f.nodes then
      (f, Err(NOT_FOUND))
    else if f.nodes[n].claimKey == None then
      (f, Ok(false))
    else if f.nodes[n].claimKey != Some(k) then
      (f, Err(CLAIM_MISMATCH))
    else
      var node := f.nodes[n].(claimKey := None);
      (FleetState(f.nodes[n := node],
                  f.pool[node.group := PoolOf(f, node.group) + [n]],
                  f.byClaim - {k}),
       Ok(true))
  }

  /** An operator deletes a node: it disappears from every table. */
  function RemoveNode(f: FleetState, n: NodeId): FleetState
    requires n in f.nodes
  {
    var node := f.nodes[n];
    FleetState(f.nodes - {n},
               if node.group in f.pool then f.pool[node.group := Without(f.pool[node.group], n)] else f.pool,
               if node.claimKey.Some? then f.byClaim - {node.claimKey.value} else f.byClaim)
  }

  function Without(s: seq<NodeId>, n: NodeId): (r: seq<NodeId>)
    ensures n !in r
    ensures forall x :: x in s && x != n ==> x in r
    ensures forall x :: x in r ==> x in s
    ensures NoDuplicates(s) ==> NoDuplicates(r)
  {
    if s == [] then [] else
    var rest := Without(s[1..], n);
    assert forall x :: x in s ==> x == s[0] || x in s[1..];
    if s[0] == n then rest else
      assert NoDuplicates(s) ==> NoDuplicates(s[1..]) && s[0] !in s[1..];
      [s[0]] + rest
  }

  /*** Claiming ***/

  /** Everything about the nodes except who claims them. */
  ghost predicate SameReports(f: FleetState, f': FleetState) {
    && f'.nodes.Keys == f.nodes.Keys
    && forall n :: n in f.nodes ==> f'.nodes[n] == f.nodes[n].(claimKey := f'.nodes[n].claimKey)
  }

  lemma QueueListsFree(f: FleetState, g: GroupId)
    requires Valid(f)
    ensures FreeIn(f, g) == set n | n in PoolOf(f, g)
    ensures |PoolOf(f, g)| == 0 <==> FreeIn(f, g) == {}
    ensures |PoolOf(f, g)| > 0 ==> PoolOf(f, g)[0] in FreeIn(f, g)
  {
    var queue := PoolOf(f, g);
    forall n ensures n in FreeIn(f, g) <==> n in queue {
      if n in queue { assert g in f.pool && n in f.pool[g]; }
    }
    if |queue| > 0 {
      assert queue[0] in queue;
    }
  }

  /** Taking the head of a group's queue leaves each pool listing its free nodes, once. */
  lemma TakeHeadPools(f: FleetState, g: GroupId, k: Key, f': FleetState)
    requires Valid(f) && k !in f.byClaim && |PoolOf(f, g)| > 0
    requires f' == Claim(f, g, k).0
    ensures f'.nodes == f.nodes[f.pool[g][0] := f.nodes[f.pool[g][0]].(claimKey := Some(k))]
    ensures f'.byClaim == f.byClaim[k := f.pool[g][0]]
    ensures forall h :: h in f'.pool ==> NoDuplicates(f'.pool[h])
    ensures forall h, n :: h in f'.pool && n in f'.pool[h] ==>
              n in f'.nodes && f'.nodes[n].group == h && f'.nodes[n].claimKey == None
    ensures forall n :: n in f'.nodes && f'.nodes[n].claimKey == None ==>
              f'.nodes[n].group in f'.pool && n in f'.pool[f'.nodes[n].group]
  {
    var queue := f.pool[g];
    var id := queue[0];
    assert id in queue && id !in queue[1..] && queue == [id] + queue[1..];
    assert f'.pool == f.pool[g := queue[1..]];
    forall h, n | h in f'.pool && n in f'.pool[h]
      ensures n in f'.nodes && f'.nodes[n].group == h && f'.nodes[n].claimKey == None
    {
      assert h in f.pool && n in f.pool[h];
    }
    forall n | n in f'.nodes && f'.nodes[n].claimKey == None
      ensures f'.nodes[n].group in f'.pool && n in f'.pool[f'.nodes[n].group]
    {
      assert n != id && n in f.nodes && n in f.pool[f.nodes[n].group];
    }
  }

  /** Taking the head of a group's queue for a key that holds nothing keeps the tables consistent. */
  lemma TakeHeadValid(f: FleetState, g: GroupId, k: Key, f': FleetState)
    requires Valid(f) && k !in f.byClaim && |PoolOf(f, g)| > 0
    requires f' == Claim(f, g, k).0
    ensures Valid(f')
  {
    TakeHeadPools(f, g, k, f');
    assert f.pool[g][0] in f.pool[g];
  }

  lemma TakeHeadSound(f: FleetState, g: GroupId, k: Key)
    requires Valid(f) && k !in f.byClaim && |PoolOf(f, g)| > 0
    ensures var (f', reply) := Claim(f, g, k);
      var n := PoolOf(f, g)[0];
      && reply.Ok? && reply.value.id == n && n != "" && f'.nodes[n] == reply.value
      && Holds(f', n, k) && HeldBy(f', k) == Some(n)
      && SameReports(f, f')
      && (forall k' :: k' != k ==> HeldBy(f', k') == HeldBy(f, k'))
      && (forall m, k' :: k' != k && Holds(f, m, k') ==> Holds(f', m, k'))
  {
    assert g in f.pool && f.pool[g][0] in f.pool[g];
  }

  /** A claim keeps the tables consistent, touches no other key's node, and hands out a node
      held under the claimant's key: the one it already had, or else a free one of the group.
      It is refused exactly when the key holds nothing and the group has no free node. */
  lemma ClaimSound(f: FleetState, g: GroupId, k: Key)
    requires Valid(f)
    ensures Valid(Claim(f, g, k).0)
    ensures SameReports(f, Claim(f, g, k).0)
    ensures Claim(f, g, k).1.Err? ==> Claim(f, g, k) == (f, Err(NO_CAPACITY))
    ensures Claim(f, g, k).1.Err? <==> (HeldBy(f, k) == None && FreeIn(f, g) == {})
    ensures Claim(f, g, k).1.Ok? ==>
      var (f', reply) := Claim(f, g, k);
      var n := reply.value.id;
      && n != "" && Holds(f', n, k) && HeldBy(f', k) == Some(n) && f'.nodes[n] == reply.value
      && (HeldBy(f, k).Some? ==> HeldBy(f, k) == Some(n) && f' == f)
      && (HeldBy(f, k) == None ==> n in FreeIn(f, g) && n == PoolOf(f, g)[0])
    ensures forall k' :: k' != k ==> HeldBy(Claim(f, g, k).0, k') == HeldBy(f, k')
    ensures forall n, k' :: k' != k && Holds(f, n, k') ==> Holds(Claim(f, g, k).0, n, k')
  {
    if k !in f.byClaim {
      QueueListsFree(f, g);
      if |PoolOf(f, g)| > 0 {
        TakeHeadValid(f, g, k, Claim(f, g, k).0);
        TakeHeadSound(f, g, k);
      }
    }
  }

  /** Claiming again with the same key finds the same node, whatever the group or its pool. */
  lemma ClaimIdempotent(f: FleetState, g: GroupId, g': GroupId, k: Key)
    requires Valid(f) && Claim(f, g, k).1.Ok?
    ensures Valid(Claim(f, g, k).0)
    ensures var f' := Claim(f, g, k).0; Claim(f', g', k) == (f', Claim(f, g, k).1)
  {
    ClaimSound(f, g, k);
  }

  /*** Releasing ***/

  /** Returning a held node to the end of its group's queue keeps the tables consistent. */
  lemma ReturnValid(f: FleetState, n: NodeId, k: Key, f': FleetState)
    requires Valid(f) && Holds(f, n, k)
    requires f' == Release(f, n, k).0
    ensures Valid(f')
  {
    var g := f.nodes[n].group;
    var queue := PoolOf(f, g);
    assert n !in queue && NoDuplicates(queue);
    assert f'.nodes == f.nodes[n := f.nodes[n].(claimKey := None)];
    assert f'.pool == f.pool[g := queue + [n]];
    assert f'.byClaim == f.byClaim - {k};
    assert NoDuplicates(queue + [n]);
    forall h, m | h in f'.pool && m in f'.pool[h]
      ensures m in f'.nodes && f'.nodes[m].group == h && f'.nodes[m].claimKey == None
    {
      if m != n { assert h in f.pool && m in f.pool[h]; }
    }
    forall m | m in f'.nodes && f'.nodes[m].claimKey == None
      ensures f'.nodes[m].group in f'.pool && m in f'.pool[f'.nodes[m].group]
    {
      if m != n { assert m in f.pool[f.nodes[m].group]; }
    }
    forall m | m in f'.nodes && f'.nodes[m].claimKey.Some?
      ensures f'.nodes[m].claimKey.value in f'.byClaim && f'.byClaim[f'.nodes[m].claimKey.value] == m
    {
      assert f.byClaim[f.nodes[m].claimKey.value] == m && m != n;
    }
  }

  /** A release clears exactly the claim it names: it succeeds only for the key that holds the
      node, leaves every other key's claim alone, and afterwards the key holds the node no more. */
  lemma ReleaseSound(f: FleetState, n: NodeId, k: Key)
    requires Valid(f)
    ensures Valid(Release(f, n, k).0)
    ensures SameReports(f, Release(f, n, k).0)
    ensures !Holds(Release(f, n, k).0, n, k)
    ensures Release(f, n, k).1 == Ok(true) <==> Holds(f, n, k)
    ensures Release(f, n, k).1 == Ok(false) <==> n in f.nodes && f.nodes[n].claimKey == None
    ensures Release(f, n, k).1 == Err(NOT_FOUND) <==> n !in f.nodes
    ensures Release(f, n, k).1 == Err(CLAIM_MISMATCH) <==>
            n in f.nodes && f.nodes[n].claimKey.Some? && f.nodes[n].claimKey != Some(k)
    ensures Release(f, n, k).1 != Ok(true) ==> Release(f, n, k).0 == f
    ensures Release(f, n, k).1 == Ok(true) ==>
              PoolOf(Release(f, n, k).0, f.nodes[n].group) == PoolOf(f, f.nodes[n].group) + [n]
    ensures Release(f, n, k).1 == Ok(true) ==>
              HeldBy(Release(f, n, k).0, k) == None && n in FreeNodes(Release(f, n, k).0)
    ensures forall k' :: k' != k ==> HeldBy(Release(f, n, k).0, k') == HeldBy(f, k')
    ensures forall m, k' :: k' != k && Holds(f, m, k') ==> Holds(Release(f, n, k).0, m, k')
  {
    if Holds(f, n, k) {
      ReturnValid(f, n, k, Release(f, n, k).0);
      assert f.byClaim[k] == n;
    }
  }

  /** A second release is a no-op, also when the freed node has been claimed under another key
      in between: the new owner keeps it. */
  lemma ReleaseIdempotent(f: FleetState, n: NodeId, k: Key, g: GroupId, other: Key)
    requires Valid(f) && other != k
    ensures var f1 := Release(f, n, k).0;
      && Release(f1, n, k).0 == f1
      && Valid(f1)
      && var f2 := Claim(f1, g, other).0;
         && Release(f2, n, k).0 == f2
         && (Holds(f2, n, other) ==> Release(f2, n, k).1 == Err(CLAIM_MISMATCH))
  {
    ReleaseSound(f, n, k);
    var f1 := Release(f, n, k).0;
    ClaimSound(f1, g, other);
    var f2 := Claim(f1, g, other).0;
    ReleaseSound(f1, n, k);
    ReleaseSound(f2, n, k);
  }

  /*** Commands and node removal ***/

  lemma CreateCommandSound(f: FleetState, n: NodeId, c: Command)
    requires Valid(f)
    ensures var (f', reply) := CreateCommand(f, n, c);
      && Valid(f')
      && f'.nodes.Keys == f.nodes.Keys && f'.byClaim == f.byClaim
      && (reply.Ok? <==> n in f.nodes)
      && (reply.Err? ==> f' == f)
      && (forall m :: m in f.nodes && m != n ==> f'.nodes[m] == f.nodes[m])
      && (n in f.nodes ==> f'.nodes[n] == f.nodes[n].(commands := f.nodes[n].commands + [c]))
  {
  }

  lemma RemoveNodeValid(f: FleetState, n: NodeId)
    requires Valid(f) && n in f.nodes
    ensures Valid(RemoveNode(f, n))
  {
    var f', node := RemoveNode(f, n), f.nodes[n];
    assert f'.nodes == f.nodes - {n};
    forall g, m | g in f'.pool && m in f'.pool[g]
      ensures m in f'.nodes && f'.nodes[m].group == g && f'.nodes[m].claimKey == None
    {
      assert g in f.pool && m in f.pool[g];
    }
    forall m | m in f'.nodes && f'.nodes[m].claimKey == None
      ensures f'.nodes[m].group in f'.pool && m in f'.pool[f'.nodes[m].group]
    {
      assert m in f.pool[f.nodes[m].group] && m != n;
    }
  }

  /** Removing a node takes away its own claim and no other. */
  lemma RemoveNodeSound(f: FleetState, n: NodeId)
    requires Valid(f) && n in f.nodes
    ensures var f' := RemoveNode(f, n);
      && Valid(f')
      && f'.nodes == f.nodes - {n}
      && (forall k :: HeldBy(f', k) == if HeldBy(f, k) == Some(n) then None else HeldBy(f, k))
  {
    RemoveNodeValid(f, n);
  }

  function EnrolNode(f: FleetState, node: Node): FleetState {
    f.(nodes := f.nodes[node.id := node], pool := f.pool[node.group := PoolOf(f, node.group) + [node.id]])
  }

  lemma EnrolValid(f: FleetState, node: Node)
    requires Valid(f) && node.id != "" && node.id !in f.nodes && node.claimKey == None
    ensures Valid(EnrolNode(f, node))
  {
    var f', queue := EnrolNode(f, node), PoolOf(f, node.group);
    assert node.id !in queue && NoDuplicates(queue);
    assert NoDuplicates(queue + [node.id]);
    assert f'.pool == f.pool[node.group := queue + [node.id]];
    forall g, n | g in f'.pool && n in f'.pool[g]
      ensures n in f'.nodes && f'.nodes[n].group == g && f'.nodes[n].claimKey == None
    {
      if n != node.id { assert g in f.pool && n in f.pool[g]; }
    }
    forall n | n in f'.nodes && f'.nodes[n].claimKey == None
      ensures f'.nodes[n].group in f'.pool && n in f'.pool[f'.nodes[n].group]
    {
      if n != node.id { assert n in f.pool[f.nodes[n].group]; }
    }
  }

  lemma EnrolFree(f: FleetState, node: Node)
    requires node.id !in f.nodes && node.claimKey == None
    ensures FreeNodes(EnrolNode(f, node)) == FreeNodes(f) + {node.id}
    ensures PoolOf(EnrolNode(f, node), node.group) == PoolOf(f, node.group) + [node.id]
    ensures forall g :: g != node.group ==> PoolOf(EnrolNode(f, node), g) == PoolOf(f, g)
  {
  }

  /** What a node reports of itself has no part in the claim tables. */
  lemma ReportValid(f: FleetState, n: NodeId, node: Node)
    requires Valid(f) && n in f.nodes
    requires node.id == n && node.group == f.nodes[n].group && node.claimKey == f.nodes[n].claimKey
    ensures Valid(f.(nodes := f.nodes[n := node]))
  {
  }

  /*** Conservation ***/

  lemma ValuesBut(m: map<Key, NodeId>, k: Key)
    requires k in m && forall x, y :: x in m && y in m && x != y ==> m[x] != m[y]
    ensures (set x | x in m :: m[x]) == (set x | x in m - {k} :: (m - {k})[x]) + {m[k]}
    ensures m[k] !in (set x | x in m - {k} :: (m - {k})[x])
  {
    var vs, m' := set x | x in m :: m[x], m - {k};
    forall v | v in vs ensures v in (set x | x in m' :: m'[x]) + {m[k]} {
      var x :| x in m && m[x] == v;
      if x != k { assert x in m'; }
    }
  }

  /** An injective map has as many values as keys. */
  lemma {:induction false} InjectiveSize(m: map<Key, NodeId>)
    requires forall k, k' :: k in m && k' in m && k != k' ==> m[k] != m[k']
    ensures |set k | k in m :: m[k]| == |m|
  {
    var vs := set k | k in m :: m[k];
    if |m| == 0 {
      assert vs == {};
    } else {
      var k :| k in m;
      var m' := m - {k};
      assert m'.Keys == m.Keys - {k};
      InjectiveSize(m');
      var vs' := set x | x in m' :: m'[x];
      ValuesBut(m, k);
      assert |m| == |m.Keys| && |m'| == |m'.Keys|;
    }
  }

  lemma {:induction false} DistinctSize(s: seq<NodeId>)
    requires NoDuplicates(s)
    ensures |set n | n in s| == |s|
  {
    if s == [] {
      assert (set n | n in s) == {};
    } else {
      assert s[0] !in s[1..];
      DistinctSize(s[1..]);
      assert (set n | n in s) == {s[0]} + (set n | n in s[1..]);
    }
  }

  lemma PoolCountsFree(f: FleetState, g: GroupId)
    requires Valid(f)
    ensures |PoolOf(f, g)| == |FreeIn(f, g)|
  {
    assert NoDuplicates(PoolOf(f, g));
    DistinctSize(PoolOf(f, g));
    QueueListsFree(f, g);
  }

  lemma ClaimsCountHeld(f: FleetState)
    requires Valid(f)
    ensures |HeldNodes(f)| == |f.byClaim|
  {
    forall k, k' | k in f.byClaim && k' in f.byClaim && k != k' ensures f.byClaim[k] != f.byClaim[k'] {
      assert f.nodes[f.byClaim[k]].claimKey == Some(k);
      assert f.nodes[f.byClaim[k']].claimKey == Some(k');
    }
    InjectiveSize(f.byClaim);
    var held := set k | k in f.byClaim :: f.byClaim[k];
    forall n ensures n in HeldNodes(f) <==> n in held {
      if n in HeldNodes(f) {
        var k := f.nodes[n].claimKey.value;
        assert k in f.byClaim && f.byClaim[k] == n;
      }
    }
    assert HeldNodes(f) == held;
  }

  lemma NodesSplit(f: FleetState)
    ensures FreeNodes(f) !! HeldNodes(f) && FreeNodes(f) + HeldNodes(f) == f.nodes.Keys
    ensures |FreeNodes(f)| + |HeldNodes(f)| == |f.nodes|
  {
    var free, held := FreeNodes(f), HeldNodes(f);
    forall n ensures n in free + held <==> n in f.nodes.Keys {
    }
    assert free + held == f.nodes.Keys && free !! held;
    assert |f.nodes.Keys| == |f.nodes|;
  }

  /** Free plus held is every node; there are as many held nodes as claims; and a group's queue
      is as long as the group has free nodes. */
  lemma Conservation(f: FleetState, g: GroupId)
    requires Valid(f)
    ensures FreeNodes(f) !! HeldNodes(f) && FreeNodes(f) + HeldNodes(f) == f.nodes.Keys
    ensures |FreeNodes(f)| + |HeldNodes(f)| == |f.nodes|
    ensures |HeldNodes(f)| == |f.byClaim|
    ensures |PoolOf(f, g)| == |FreeIn(f, g)|
  {
    PoolCountsFree(f, g);
    ClaimsCountHeld(f);
    NodesSplit(f);
  }
}
