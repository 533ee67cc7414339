/** Entities of the simulation engine: nodes, directed edges and agents, all keyed
    by ids drawn from one shared counter, plus the engine's configuration constants. */
module SimTypes {

  /** An id is the value of the engine's counter; the engine renders it with
      toString, which keeps distinct counter values distinct. */
  type Id = nat

  datatype Option<T> = None | Some(value: T)

  /** The one failure of the store: a lookup of an id that is not a key. */
  datatype Error = NoAgent(id: Id) | NoNode(id: Id) | NoEdge(id: Id)

  datatype Result<T> = Ok(value: T) | Err(error: Error)

  /** A position in the normalised plane. */
  datatype Point = Point(x: real, y: real)

  /** A node and the ids of its outgoing edges, in the order they were added. */
  datatype Node = Node(id: Id, position: Point, edges: seq<Id>)

  /** A directed edge with its usage counter and the tick it was last used on. */
  datatype Edge = Edge(id: Id, src: Id, dst: Id, uses: nat, lastUse: nat)

  /** An agent: its long-term goal, its immediate hop and the edge it travels on, if any. */
  datatype Agent = Agent(id: Id, position: Point, finalDest: Id, currentDest: Id, currentEdge: Option<Id>)

  /** The topology diff a tick reports. */
  datatype SimUpdate = SimUpdate(
    addedAgents: seq<Id>,
    addedNodes: seq<Id>,
    addedEdges: seq<Id>,
    removedAgents: seq<Id>,
    removedNodes: seq<Id>,
    removedEdges: seq<Id>)

  const MAX_NODES: nat := 100
  const MAX_AGENTS: nat := 50
  const NODE_SPAWN_RATE: nat := 25
  const AGENT_SPAWN_RATE: nat := 50

  predicate InUnitSquare(p: Point) {
    0.0 <= p.x <= 1.0 && 0.0 <= p.y <= 1.0
  }

  ghost predicate Distinct(s: seq<Id>) {
    forall i, j :: 0 <= i < j < |s| ==> s[i] != s[j]
  }
}
