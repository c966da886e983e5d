/** The in-memory AuroraBoot server: the three tables updated in place, one method per endpoint. */
module Server {
  import opened Wrappers
  import opened Fleet

  class AuroraBoot {
    var nodes: map<NodeId, Node>
    var pool: map<GroupId, seq<NodeId>>
    var byClaim: map<Key, NodeId>

    ghost function State(): FleetState
      reads this
    {
      FleetState(nodes, pool, byClaim)
    }

    /** A server with no nodes enrolled. */
    constructor ()
      ensures State() == FleetState(map[], map[], map[]) && Valid(State())
    {
      nodes, pool, byClaim := map[], map[], map[];
    }

    /** Enrols an unclaimed node into a group. */
    method Enrol(node: Node)
      requires Valid(State())
      requires node.id != "" && node.id !in nodes && node.claimKey == None
      modifies this
      ensures Valid(State()) && State() == EnrolNode(old(State()), node)
      ensures FreeNodes(State()) == old(FreeNodes(State())) + {node.id}
      ensures PoolOf(State(), node.group) == old(PoolOf(State(), node.group)) + [node.id]
    {
      var queue := if node.group in pool then pool[node.group] else [];
      EnrolValid(State(), node);
      EnrolFree(State(), node);
      nodes := nodes[node.id := node];
      pool := pool[node.group := queue + [node.id]];
    }

    method HandleClaim(group: GroupId, key: Key) returns (reply: Reply<Node>)
      requires Valid(State())
      modifies this
      ensures Valid(State())
      ensures (State(), reply) == Claim(old(State()), group, key)
    {
      ClaimSound(State(), group, key);
      if key in byClaim {
        return Ok(nodes[byClaim[key]]);
      }
      var queue := if group in pool then pool[group] else [];
      if |queue| == 0 {
        return Err(NO_CAPACITY);
      }
      var id := queue[0];
      assert group in pool && id in pool[group];
      pool := pool[group := queue[1..]];
      nodes := nodes[id := nodes[id].(claimKey := Some(key))];
      byClaim := byClaim[key := id];
      return Ok(nodes[id]);
    }

    method HandleGetNode(id: NodeId) returns (reply: Reply<Node>)
      ensures reply == GetNode(State(), id)
    {
      if id !in nodes {
        return Err(NOT_FOUND);
      }
      return Ok(nodes[id]);
    }

    method HandleCreateCommand(id: NodeId, command: Command) returns (reply: Reply<Command>)
      requires Valid(State())
      modifies this`nodes
      ensures Valid(State())
      ensures (State(), reply) == CreateCommand(old(State()), id, command)
    {
      if id !in nodes {
        return Err(NOT_FOUND);
      }
      CreateCommandSound(State(), id, command);
      nodes := nodes[id := nodes[id].(commands := nodes[id].commands + [command])];
      return Ok(command);
    }

    method HandleGetCommands(id: NodeId) returns (reply: Reply<seq<Command>>)
      ensures reply == GetCommands(State(), id)
    {
      if id !in nodes {
        return Err(NOT_FOUND);
      }
      return Ok(nodes[id].commands);
    }

    method HandleRelease(id: NodeId, key: Key) returns (reply: Reply<bool>)
      requires Valid(State())
      modifies this
      ensures Valid(State())
      ensures (State(), reply) == Release(old(State()), id, key)
    {
      ReleaseSound(State(), id, key);
      if id !in nodes {
        return Err(NOT_FOUND);
      }
      var node := nodes[id];
      if node.claimKey == None {
        return Ok(false);
      }
      if node.claimKey != Some(key) {
        return Err(CLAIM_MISMATCH);
      }
      byClaim := byClaim - {key};
      nodes := nodes[id := node.(claimKey := None)];
      pool := pool[node.group := (if node.group in pool then pool[node.group] else []) + [id]];
      return Ok(true);
    }
  }
}
