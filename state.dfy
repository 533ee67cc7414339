/** The engine's state as a value, the store invariant, and the primitive updates
    that spawn and tick make to it in src/core/Sim.ts, each proved to keep the
    invariant. transitions.dfy composes them into spawn and tick. */
module State {
  import opened SimTypes
  import opened Geometry
  import opened Router

  /** The fields of a Sim. nodeOrder and agentOrder hold the keys of nodes and agents
      in insertion order, the order in which a JavaScript Map enumerates them; their
      lengths are the maps' sizes (OrderCounts). */
  datatype World = World(
    nodes: map<Id, Node>,
    edges: map<Id, Edge>,
    agents: map<Id, Agent>,
    nodeOrder: seq<Id>,
    agentOrder: seq<Id>,
    nextId: nat,
    elapsed: nat)

  function GraphOf(m: Metric, w: World): Graph {
    Graph(m, w.nodes, w.edges)
  }

  // ----- The store invariant -----

  /** Every id was issued by the counter, and no id is used by two entities. */
  ghost predicate IdsIssued(w: World) {
    && (forall id :: id in w.nodes ==> id < w.nextId)
    && (forall id :: id in w.edges ==> id < w.nextId)
    && (forall id :: id in w.agents ==> id < w.nextId)
    && w.nodes.Keys !! w.edges.Keys && w.nodes.Keys !! w.agents.Keys && w.edges.Keys !! w.agents.Keys
  }

  /** Each record carries its own key. */
  ghost predicate RecordsKeyed(w: World) {
    && (forall id :: id in w.nodes ==> w.nodes[id].id == id)
    && (forall id :: id in w.edges ==> w.edges[id].id == id)
    && (forall id :: id in w.agents ==> w.agents[id].id == id)
  }

  /** An edge joins two stored nodes, is listed by its source, has been used and was
      last used no later than now; a node lists only stored edges that start at it. */
  ghost predicate Linked(w: World) {
    && (forall e :: e in w.edges ==>
          && w.edges[e].src in w.nodes && w.edges[e].dst in w.nodes
          && e in w.nodes[w.edges[e].src].edges
          && w.edges[e].uses >= 1 && w.edges[e].lastUse <= w.elapsed)
    && (forall n, e :: n in w.nodes && e in w.nodes[n].edges ==> e in w.edges && w.edges[e].src == n)
  }

  /** An agent is in the unit square, heads for stored nodes, and the edge it travels
      on, if any, is stored and leads to its current destination. */
  ghost predicate AgentPlaced(w: World, a: Agent) {
    && InUnitSquare(a.position)
    && a.currentDest in w.nodes && a.finalDest in w.nodes
    && (a.currentEdge.Some? ==> a.currentEdge.value in w.edges && w.edges[a.currentEdge.value].dst == a.currentDest)
  }

  ghost predicate Placed(w: World) {
    && (forall n :: n in w.nodes ==> InUnitSquare(w.nodes[n].position))
    && (forall a :: a in w.agents ==> AgentPlaced(w, w.agents[a]))
  }

  ghost predicate Ordered(w: World) {
    && Distinct(w.nodeOrder) && (forall id :: id in w.nodes <==> id in w.nodeOrder)
    && Distinct(w.agentOrder) && (forall id :: id in w.agents <==> id in w.agentOrder)
  }

  /** The store invariant, which holds at every step of a tick: the above, the
      ceilings on the number of nodes and agents, and at least one node once the
      first tick has run. */
  ghost predicate Sound(m: Metric, w: World) {
    && Lawful(m)
    && IdsIssued(w) && RecordsKeyed(w) && Linked(w) && Placed(w) && Ordered(w)
    && |w.nodeOrder| <= MAX_NODES && |w.agentOrder| <= MAX_AGENTS
    && (w.elapsed > 0 ==> w.nodeOrder != [])
  }

  /** The invariant between ticks: before the first tick nothing exists yet. */
  ghost predicate Settled(m: Metric, w: World) {
    Sound(m, w) && (w.elapsed == 0 ==> w.nodes == map[] && w.edges == map[] && w.agents == map[])
  }

  lemma SoundGraph(m: Metric, w: World)
    requires Sound(m, w)
    ensures Wf(GraphOf(m, w))
  {
  }

  /** A distinct list that enumerates a set is as long as the set is large. */
  lemma {:induction false} DistinctCount(s: seq<Id>, keys: set<Id>)
    requires Distinct(s) && forall x :: x in keys <==> x in s
    ensures |keys| == |s|
    decreases |s|
  {
    if s != [] {
      var last := s[|s| - 1];
      var init := s[..|s| - 1];
      assert s == init + [last];
      assert last !in init by {
        forall i | 0 <= i < |init|
          ensures init[i] != last
        {
          assert init[i] == s[i];
        }
      }
      assert Distinct(init) by {
        forall i, j | 0 <= i < j < |init|
          ensures init[i] != init[j]
        {
          assert init[i] == s[i] && init[j] == s[j];
        }
      }
      DistinctCount(init, keys - {last});
    }
  }

  /** The insertion-order lists count the maps: their lengths are nodes.size and agents.size. */
  lemma OrderCounts(w: World)
    requires Ordered(w)
    ensures |w.nodes| == |w.nodeOrder| && |w.agents| == |w.agentOrder|
  {
    DistinctCount(w.nodeOrder, w.nodes.Keys);
    DistinctCount(w.agentOrder, w.agents.Keys);
    assert |w.nodes| == |w.nodes.Keys| && |w.agents| == |w.agents.Keys|;
  }

  lemma DistinctAppend(s: seq<Id>, x: Id)
    requires Distinct(s) && x !in s
    ensures Distinct(s + [x])
  {
    var t := s + [x];
    forall i, j | 0 <= i < j < |t|
      ensures t[i] != t[j]
    {
      assert t[i] == s[i];
      if j < |s| {
        assert t[j] == s[j];
      }
    }
  }

  // ----- Edge bookkeeping -----

  /** Two edges that join the same two nodes in opposite directions. */
  predicate Mirror(e1: Edge, e2: Edge) {
    e1.src == e2.dst && e1.dst == e2.src
  }

  /** The ids in s come two by two, each pair a stored edge and its mirror. */
  ghost predicate Paired(edges: map<Id, Edge>, s: seq<Id>)
    decreases |s|
  {
    if s == [] then true
    else |s| >= 2 && s[0] in edges && s[1] in edges && Mirror(edges[s[0]], edges[s[1]]) && Paired(edges, s[2..])
  }

  /** Every edge of `before` is still in `after`, between the same nodes, used at least as often. */
  ghost predicate Keeps(before: map<Id, Edge>, after: map<Id, Edge>) {
    forall e :: e in before ==>
      && e in after
      && after[e].id == before[e].id
      && after[e].src == before[e].src
      && after[e].dst == before[e].dst
      && after[e].uses >= before[e].uses
  }

  /** Edge e has a stored mirror. */
  ghost predicate HasMirror(edges: map<Id, Edge>, e: Id)
    requires e in edges
  {
    exists f :: f in edges && Mirror(edges[e], edges[f])
  }

  /** Every stored edge has a stored mirror. */
  ghost predicate Mirrored(edges: map<Id, Edge>) {
    forall e {:trigger HasMirror(edges, e)} :: e in edges ==> HasMirror(edges, e)
  }

  lemma {:induction false} PairedAppend(edges: map<Id, Edge>, s: seq<Id>, t: seq<Id>)
    requires Paired(edges, s) && Paired(edges, t)
    ensures Paired(edges, s + t)
    decreases |s|
  {
    if s == [] {
      assert s + t == t;
    } else {
      assert (s + t)[0] == s[0] && (s + t)[1] == s[1];
      assert (s + t)[2..] == s[2..] + t;
      PairedAppend(edges, s[2..], t);
    }
  }

  lemma {:induction false} PairedKept(before: map<Id, Edge>, after: map<Id, Edge>, s: seq<Id>)
    requires Paired(before, s) && Keeps(before, after)
    ensures Paired(after, s)
    decreases |s|
  {
    if s != [] {
      PairedKept(before, after, s[2..]);
    }
  }

  /** Each id of a paired list is a stored edge with a stored mirror. */
  lemma {:induction false} PairedHasMirror(edges: map<Id, Edge>, s: seq<Id>, x: Id)
    requires Paired(edges, s) && x in s
    ensures x in edges && HasMirror(edges, x)
    decreases |s|
  {
    if x == s[0] {
      assert Mirror(edges[x], edges[s[1]]);
    } else if x == s[1] {
      assert Mirror(edges[x], edges[s[0]]);
    } else {
      assert x in s[2..];
      PairedHasMirror(edges, s[2..], x);
    }
  }

  /** Growing the store by a paired list of edges, keeping the old ones, keeps every
      edge mirrored. */
  lemma MirroredGrows(before: map<Id, Edge>, after: map<Id, Edge>, added: seq<Id>)
    requires Mirrored(before) && Keeps(before, after) && Paired(after, added)
    requires forall e :: e in after ==> e in before || e in added
    ensures Mirrored(after)
  {
    forall e | e in after
      ensures HasMirror(after, e)
    {
      if e in before {
        assert HasMirror(before, e);
        var f :| f in before && Mirror(before[e], before[f]);
        assert f in after && Mirror(after[e], after[f]);
      } else {
        PairedHasMirror(after, added, e);
      }
    }
  }

  /** What an update does to the store besides keeping the invariant: every edge is
      kept (so no edge's uses drops), the only new edges are the ids in `added`, which
      come in mirrored pairs and are fresh counter values, the counter advances by
      their number, and no node or agent appears, disappears or (for nodes) moves. */
  ghost predicate Grows(w: World, r: World, added: seq<Id>) {
    && Keeps(w.edges, r.edges)
    && Paired(r.edges, added)
    && (forall e :: e in r.edges <==> e in w.edges || e in added)
    && r.nextId == w.nextId + |added|
    && (forall e :: e in added ==> w.nextId <= e < r.nextId)
    && Distinct(added)
    && r.nodes.Keys == w.nodes.Keys && r.agents.Keys == w.agents.Keys
    && (forall n :: n in w.nodes ==> r.nodes[n].position == w.nodes[n].position)
    && r.nodeOrder == w.nodeOrder && r.agentOrder == w.agentOrder && r.elapsed == w.elapsed
  }

  /** Growth composes, and the minted lists concatenate. */
  lemma GrowsTrans(w0: World, w1: World, w2: World, a1: seq<Id>, a2: seq<Id>)
    requires Grows(w0, w1, a1) && Grows(w1, w2, a2)
    ensures Grows(w0, w2, a1 + a2)
  {
    PairedKept(w1.edges, w2.edges, a1);
    PairedAppend(w2.edges, a1, a2);
    var s := a1 + a2;
    forall e | e in s
      ensures w0.nextId <= e < w2.nextId
    {
      if e !in a1 {
        assert e in a2;
      }
    }
    forall i, j | 0 <= i < j < |s|
      ensures s[i] != s[j]
    {
      if j < |a1| {
        assert s[i] == a1[i] && s[j] == a1[j];
      } else if i < |a1| {
        assert s[i] == a1[i] && a1[i] in a1;
        assert s[j] == a2[j - |a1|] && a2[j - |a1|] in a2;
      } else {
        assert s[i] == a2[i - |a1|] && s[j] == a2[j - |a1|];
      }
    }
  }

  /** node n with edge id e appended to its outgoing list (`node.edges.push`). */
  function AppendEdge(nodes: map<Id, Node>, n: Id, e: Id): (r: map<Id, Node>)
    requires n in nodes
    ensures r.Keys == nodes.Keys && r[n].edges == nodes[n].edges + [e]
    ensures r[n].id == nodes[n].id && r[n].position == nodes[n].position
    ensures forall k :: k in nodes && k != n ==> r[k] == nodes[k]
  {
    nodes[n := nodes[n].(edges := nodes[n].edges + [e])]
  }

  // ----- Adding a node (spawn, Sim.ts lines 180-188) -----

  /** A node at pos under the next id, with no edges. */
  function AddNode(w: World, pos: Point): World {
    var id := w.nextId;
    w.(nodes := w.nodes[id := Node(id, pos, [])], nodeOrder := w.nodeOrder + [id], nextId := id + 1)
  }

  lemma AddNodeIds(w: World, pos: Point)
    requires IdsIssued(w)
    ensures IdsIssued(AddNode(w, pos))
  {
  }

  lemma AddNodeKeyed(w: World, pos: Point)
    requires RecordsKeyed(w)
    ensures RecordsKeyed(AddNode(w, pos))
  {
  }

  lemma AddNodeLinked(w: World, pos: Point)
    requires IdsIssued(w) && Linked(w)
    ensures Linked(AddNode(w, pos))
  {
    var r := AddNode(w, pos);
    forall e | e in r.edges
      ensures e in r.nodes[r.edges[e].src].edges
    {
      assert w.edges[e].src in w.nodes;
    }
    forall n, e | n in r.nodes && e in r.nodes[n].edges
      ensures e in r.edges && r.edges[e].src == n
    {
      assert n in w.nodes;
    }
  }

  lemma AddNodePlaced(w: World, pos: Point)
    requires Placed(w) && InUnitSquare(pos)
    ensures Placed(AddNode(w, pos))
  {
    var r := AddNode(w, pos);
    forall a | a in r.agents
      ensures AgentPlaced(r, r.agents[a])
    {
      assert AgentPlaced(w, w.agents[a]);
    }
  }

  lemma AddNodeOrdered(w: World, pos: Point)
    requires IdsIssued(w) && Ordered(w)
    ensures Ordered(AddNode(w, pos))
  {
    assert w.nextId !in w.nodeOrder;
    DistinctAppend(w.nodeOrder, w.nextId);
  }

  /** Adding a node keeps the invariant (below the node ceiling); the node is fresh. */
  lemma AddNodeSound(m: Metric, w: World, pos: Point)
    requires Sound(m, w) && InUnitSquare(pos) && |w.nodeOrder| < MAX_NODES
    ensures Sound(m, AddNode(w, pos))
    ensures w.nextId !in w.nodes && w.nextId !in w.edges && w.nextId !in w.agents
  {
    AddNodeIds(w, pos);
    AddNodeKeyed(w, pos);
    AddNodeLinked(w, pos);
    AddNodePlaced(w, pos);
    AddNodeOrdered(w, pos);
  }

  /** Adding a node stores a fresh node at pos with no edges and leaves every other
      record as it was. */
  lemma AddNodeRecords(w: World, pos: Point)
    requires IdsIssued(w)
    ensures var r := AddNode(w, pos);
      && w.nextId !in w.nodes && r.agents == w.agents && r.agentOrder == w.agentOrder
      && r.nodes == w.nodes[w.nextId := Node(w.nextId, pos, [])]
      && r.nodeOrder == w.nodeOrder + [w.nextId] && r.nextId == w.nextId + 1
      && r.edges == w.edges && r.elapsed == w.elapsed
  {
  }

  // ----- Adding an agent (spawn, Sim.ts lines 189-199) -----

  /** `_.sample` over a map's keys or values in insertion order: a random draw picks
      the entry at its index, reduced modulo the number of entries. */
  function Sample(order: seq<Id>, draw: nat): (r: Id)
    requires |order| > 0
    ensures r in order
  {
    order[draw % |order|]
  }

  /** Every entry can be drawn. */
  lemma SampleReachesEvery(order: seq<Id>, k: nat)
    requires k < |order|
    ensures Sample(order, k) == order[k]
  {
  }

  /** An agent under the next id, standing on a sampled node with that node as both
      destinations and no edge; draw is the random pick of `_.sample`. */
  function AddAgent(w: World, draw: nat): World
    requires w.nodeOrder != [] && forall n :: n in w.nodeOrder ==> n in w.nodes
  {
    var id := w.nextId;
    var at := w.nodes[Sample(w.nodeOrder, draw)];
    w.(agents := w.agents[id := Agent(id, at.position, at.id, at.id, None)],
       agentOrder := w.agentOrder + [id], nextId := id + 1)
  }

  lemma AddAgentIds(w: World, draw: nat)
    requires IdsIssued(w) && w.nodeOrder != [] && forall n :: n in w.nodeOrder ==> n in w.nodes
    ensures IdsIssued(AddAgent(w, draw))
  {
  }

  lemma AddAgentKeyed(w: World, draw: nat)
    requires RecordsKeyed(w) && w.nodeOrder != [] && forall n :: n in w.nodeOrder ==> n in w.nodes
    ensures RecordsKeyed(AddAgent(w, draw))
  {
  }

  lemma AddAgentLinked(w: World, draw: nat)
    requires Linked(w) && w.nodeOrder != [] && forall n :: n in w.nodeOrder ==> n in w.nodes
    ensures Linked(AddAgent(w, draw))
  {
  }

  lemma AddAgentPlaced(w: World, draw: nat)
    requires Placed(w) && RecordsKeyed(w) && w.nodeOrder != [] && forall n :: n in w.nodeOrder ==> n in w.nodes
    ensures Placed(AddAgent(w, draw))
  {
    var r := AddAgent(w, draw);
    var s := Sample(w.nodeOrder, draw);
    assert w.nodes[s].id == s;
    forall a | a in r.agents
      ensures AgentPlaced(r, r.agents[a])
    {
      if a != w.nextId {
        assert AgentPlaced(w, w.agents[a]);
      }
    }
  }

  /** Adding an agent stores a fresh agent standing on a stored node, heading for it
      with no edge, and leaves every other record as it was. */
  lemma AddAgentRecords(w: World, draw: nat)
    requires IdsIssued(w) && RecordsKeyed(w)
    requires w.nodeOrder != [] && forall n :: n in w.nodeOrder ==> n in w.nodes
    ensures var r := AddAgent(w, draw);
      && w.nextId !in w.agents && r.nodes == w.nodes && r.nodeOrder == w.nodeOrder
      && r.edges == w.edges && r.elapsed == w.elapsed
      && r.agentOrder == w.agentOrder + [w.nextId] && r.nextId == w.nextId + 1
      && (forall a :: a in w.agents ==> r.agents[a] == w.agents[a])
      && w.nextId in r.agents
      && (forall a :: a in r.agents <==> a in w.agents || a == w.nextId)
      && var ag := r.agents[w.nextId];
      && ag.id == w.nextId && ag.currentDest == ag.finalDest && ag.currentEdge == None
      && ag.currentDest in r.nodes && ag.position == r.nodes[ag.currentDest].position
  {
    var s := Sample(w.nodeOrder, draw);
    assert w.nodes[s].id == s;
  }

  lemma AddAgentOrdered(w: World, draw: nat)
    requires IdsIssued(w) && Ordered(w) && w.nodeOrder != []
    ensures Ordered(AddAgent(w, draw))
  {
    assert w.nextId !in w.agentOrder;
    DistinctAppend(w.agentOrder, w.nextId);
  }

  /** Adding an agent keeps the invariant (below the agent ceiling, with a node to
      stand on); the agent is fresh. */
  lemma AddAgentSound(m: Metric, w: World, draw: nat)
    requires Sound(m, w) && w.nodeOrder != [] && |w.agentOrder| < MAX_AGENTS
    ensures Sound(m, AddAgent(w, draw))
    ensures w.nextId !in w.nodes && w.nextId !in w.edges && w.nextId !in w.agents
  {
    AddAgentIds(w, draw);
    AddAgentKeyed(w, draw);
    AddAgentLinked(w, draw);
    AddAgentPlaced(w, draw);
    AddAgentOrdered(w, draw);
  }

  // ----- Minting a pair of edges (tick, Sim.ts lines 249-269) -----

  /** The two mirrored edges minted for an off-graph hop: fresh ids, one use each,
      last used now, each listed by its source. */
  function MintPair(w: World, src: Id, hop: Id): (r: World)
    requires src in w.nodes && hop in w.nodes
  {
    var id1, id2 := w.nextId, w.nextId + 1;
    w.(edges := w.edges[id1 := Edge(id1, src, hop, 1, w.elapsed)][id2 := Edge(id2, hop, src, 1, w.elapsed)],
       nodes := AppendEdge(AppendEdge(w.nodes, src, id1), hop, id2),
       nextId := w.nextId + 2)
  }

  /** The nodes after MintPair: the same nodes in the same places, with id1 appended
      to src's list and id2 to hop's (both to one list when src == hop). */
  lemma MintPairNode(w: World, src: Id, hop: Id, n: Id)
    requires src in w.nodes && hop in w.nodes && n in w.nodes
    ensures var r := MintPair(w, src, hop);
      && r.nodes.Keys == w.nodes.Keys
      && r.nodes[n].id == w.nodes[n].id && r.nodes[n].position == w.nodes[n].position
      && (forall e :: e in r.nodes[n].edges <==>
            e in w.nodes[n].edges || (n == src && e == w.nextId) || (n == hop && e == w.nextId + 1))
  {
  }

  /** The order of the lists after MintPair: id1 goes at the end of src's list, then
      id2 at the end of hop's, and every list keeps its old entries in their order. */
  lemma MintPairAppends(w: World, src: Id, hop: Id, n: Id)
    requires src in w.nodes && hop in w.nodes && n in w.nodes
    ensures MintPair(w, src, hop).nodes[n].edges ==
      w.nodes[n].edges + (if n == src then [w.nextId] else []) + (if n == hop then [w.nextId + 1] else [])
  {
    var l := w.nodes[n].edges + (if n == src then [w.nextId] else []) + (if n == hop then [w.nextId + 1] else []);
    assert MintPair(w, src, hop).nodes[n].edges == l;
  }

  lemma MintPairIds(w: World, src: Id, hop: Id)
    requires IdsIssued(w) && src in w.nodes && hop in w.nodes
    ensures IdsIssued(MintPair(w, src, hop))
  {
    MintPairNode(w, src, hop, src);
  }

  lemma MintPairKeyed(w: World, src: Id, hop: Id)
    requires RecordsKeyed(w) && src in w.nodes && hop in w.nodes
    ensures RecordsKeyed(MintPair(w, src, hop))
  {
    var r := MintPair(w, src, hop);
    forall n | n in r.nodes
      ensures r.nodes[n].id == n
    {
      MintPairNode(w, src, hop, n);
    }
  }

  lemma MintPairLinked(w: World, src: Id, hop: Id)
    requires IdsIssued(w) && Linked(w) && src in w.nodes && hop in w.nodes
    ensures Linked(MintPair(w, src, hop))
  {
    var r := MintPair(w, src, hop);
    var id1, id2 := w.nextId, w.nextId + 1;
    MintPairNode(w, src, hop, src);
    MintPairNode(w, src, hop, hop);
    forall e | e in r.edges
      ensures r.edges[e].src in r.nodes && r.edges[e].dst in r.nodes
      ensures e in r.nodes[r.edges[e].src].edges
      ensures r.edges[e].uses >= 1 && r.edges[e].lastUse <= r.elapsed
    {
      if e != id1 && e != id2 {
        assert r.edges[e] == w.edges[e];
        MintPairNode(w, src, hop, w.edges[e].src);
      }
    }
    forall n, e | n in r.nodes && e in r.nodes[n].edges
      ensures e in r.edges && r.edges[e].src == n
    {
      MintPairNode(w, src, hop, n);
      if e in w.nodes[n].edges {
        assert e in w.edges && e != id1 && e != id2;
      }
    }
  }

  lemma MintPairPlaced(w: World, src: Id, hop: Id)
    requires IdsIssued(w) && Placed(w) && src in w.nodes && hop in w.nodes
    ensures Placed(MintPair(w, src, hop))
  {
    var r := MintPair(w, src, hop);
    forall n | n in r.nodes
      ensures InUnitSquare(r.nodes[n].position)
    {
      MintPairNode(w, src, hop, n);
    }
    forall a | a in r.agents
      ensures AgentPlaced(r, r.agents[a])
    {
      MintPairNode(w, src, hop, src);
      assert AgentPlaced(w, w.agents[a]);
    }
  }

  lemma MintPairOrdered(w: World, src: Id, hop: Id)
    requires Ordered(w) && src in w.nodes && hop in w.nodes
    ensures Ordered(MintPair(w, src, hop))
  {
    MintPairNode(w, src, hop, src);
  }

  /** The minted edges are the fresh, mirrored ids nextId (src to hop) and nextId + 1
      (hop to src), both used once, now; no other edge changes and no node moves. */
  lemma MintPairGrows(w: World, src: Id, hop: Id)
    requires IdsIssued(w) && src in w.nodes && hop in w.nodes
    ensures var r := MintPair(w, src, hop);
      && Grows(w, r, [w.nextId, w.nextId + 1])
      && r.edges[w.nextId] == Edge(w.nextId, src, hop, 1, w.elapsed)
      && r.edges[w.nextId + 1] == Edge(w.nextId + 1, hop, src, 1, w.elapsed)
      && (forall e :: e in w.edges ==> r.edges[e] == w.edges[e])
  {
    var r := MintPair(w, src, hop);
    MintPairNode(w, src, hop, src);
    forall n | n in w.nodes
      ensures r.nodes[n].position == w.nodes[n].position
    {
      MintPairNode(w, src, hop, n);
    }
    assert w.nextId !in w.edges && w.nextId + 1 !in w.edges;
    var added := [w.nextId, w.nextId + 1];
    assert added[2..] == [];
    assert Paired(r.edges, added);
    assert Keeps(w.edges, r.edges);
    assert forall e :: e in r.edges <==> e in w.edges || e in added;
    assert Distinct(added);
    assert forall e :: e in added ==> w.nextId <= e < r.nextId;
  }

  lemma MintPairSound(m: Metric, w: World, src: Id, hop: Id)
    requires Sound(m, w) && src in w.nodes && hop in w.nodes
    ensures Sound(m, MintPair(w, src, hop))
  {
    MintPairIds(w, src, hop);
    MintPairKeyed(w, src, hop);
    MintPairLinked(w, src, hop);
    MintPairPlaced(w, src, hop);
    MintPairOrdered(w, src, hop);
  }

  // ----- Reinforcing an edge (tick, Sim.ts lines 271-274) -----

  /** One more use of edge e, now. */
  function Reinforce(w: World, e: Id): World
    requires e in w.edges
  {
    w.(edges := w.edges[e := w.edges[e].(uses := w.edges[e].uses + 1, lastUse := w.elapsed)])
  }

  lemma ReinforceIds(w: World, e: Id)
    requires IdsIssued(w) && e in w.edges
    ensures IdsIssued(Reinforce(w, e))
  {
  }

  lemma ReinforceKeyed(w: World, e: Id)
    requires RecordsKeyed(w) && e in w.edges
    ensures RecordsKeyed(Reinforce(w, e))
  {
  }

  lemma ReinforceLinked(w: World, e: Id)
    requires Linked(w) && e in w.edges
    ensures Linked(Reinforce(w, e))
  {
  }

  lemma ReinforcePlaced(w: World, e: Id)
    requires Placed(w) && e in w.edges
    ensures Placed(Reinforce(w, e))
  {
    var r := Reinforce(w, e);
    forall a | a in r.agents
      ensures AgentPlaced(r, r.agents[a])
    {
      assert AgentPlaced(w, w.agents[a]);
    }
  }

  /** e's uses rises by exactly one and its last use becomes now; no other edge
      changes and none is added. */
  lemma ReinforceGrows(w: World, e: Id)
    requires e in w.edges
    ensures var r := Reinforce(w, e);
      && Grows(w, r, [])
      && r.edges[e].uses == w.edges[e].uses + 1 && r.edges[e].lastUse == w.elapsed
      && (forall f :: f in w.edges && f != e ==> r.edges[f] == w.edges[f])
  {
  }

  lemma ReinforceSound(m: Metric, w: World, e: Id)
    requires Sound(m, w) && e in w.edges
    ensures Sound(m, Reinforce(w, e))
  {
    ReinforceIds(w, e);
    ReinforceKeyed(w, e);
    ReinforceLinked(w, e);
    ReinforcePlaced(w, e);
    assert Ordered(Reinforce(w, e));
  }

  // ----- Writing back an agent (tick, Sim.ts lines 243, 277-278, 283) -----

  /** The store with agent id's record replaced. */
  function PutAgent(w: World, id: Id, a: Agent): World {
    w.(agents := w.agents[id := a])
  }

  lemma PutAgentIds(w: World, id: Id, a: Agent)
    requires IdsIssued(w) && id in w.agents
    ensures IdsIssued(PutAgent(w, id, a))
  {
  }

  lemma PutAgentKeyed(w: World, id: Id, a: Agent)
    requires RecordsKeyed(w) && a.id == id
    ensures RecordsKeyed(PutAgent(w, id, a))
  {
  }

  lemma PutAgentLinked(w: World, id: Id, a: Agent)
    requires Linked(w)
    ensures Linked(PutAgent(w, id, a))
  {
  }

  lemma PutAgentPlaced(w: World, id: Id, a: Agent)
    requires Placed(w) && AgentPlaced(w, a)
    ensures Placed(PutAgent(w, id, a))
  {
    var r := PutAgent(w, id, a);
    forall b | b in r.agents
      ensures AgentPlaced(r, r.agents[b])
    {
      if b != id {
        assert AgentPlaced(w, w.agents[b]);
      }
    }
  }

  lemma PutAgentOrdered(w: World, id: Id, a: Agent)
    requires Ordered(w) && id in w.agents
    ensures Ordered(PutAgent(w, id, a))
  {
  }

  /** Replacing a stored agent changes nothing but that agent. */
  lemma PutAgentGrows(w: World, id: Id, a: Agent)
    requires id in w.agents
    ensures var r := PutAgent(w, id, a);
      && Grows(w, r, [])
      && r.agents[id] == a && (forall b :: b in w.agents && b != id ==> r.agents[b] == w.agents[b])
      && r.nodes == w.nodes && r.edges == w.edges
  {
  }

  /** Replacing a stored agent by a placed record with the same id keeps the invariant. */
  lemma PutAgentSound(m: Metric, w: World, id: Id, a: Agent)
    requires Sound(m, w) && id in w.agents && a.id == id && AgentPlaced(w, a)
    ensures Sound(m, PutAgent(w, id, a))
  {
    PutAgentIds(w, id, a);
    PutAgentKeyed(w, id, a);
    PutAgentLinked(w, id, a);
    PutAgentPlaced(w, id, a);
    PutAgentOrdered(w, id, a);
  }

  // ----- Advancing the clock (tick, Sim.ts line 287) -----

  function Clocked(w: World): World {
    w.(elapsed := w.elapsed + 1)
  }

  lemma ClockedLinked(w: World)
    requires Linked(w)
    ensures Linked(Clocked(w))
  {
  }

  lemma ClockedPlaced(w: World)
    requires Placed(w)
    ensures Placed(Clocked(w))
  {
    var r := Clocked(w);
    forall a | a in r.agents
      ensures AgentPlaced(r, r.agents[a])
    {
      assert AgentPlaced(w, w.agents[a]);
    }
  }

  /** A sound store stays sound, with at least one node, as the clock advances, and is
      then also settled. */
  lemma ClockedSettled(m: Metric, w: World)
    requires Sound(m, w) && w.nodeOrder != []
    ensures Settled(m, Clocked(w))
  {
    ClockedLinked(w);
    ClockedPlaced(w);
    assert IdsIssued(Clocked(w)) && RecordsKeyed(Clocked(w)) && Ordered(Clocked(w));
  }
}
