/** spawn and tick of src/core/Sim.ts as functions from state to state, built from
    the primitive updates of State, and what they guarantee. */
module Transitions {
  import opened SimTypes
  import opened Geometry
  import opened Router
  import opened Motion
  import opened State

  // ----- spawn (Sim.ts lines 176-208) -----

  /** Spawner schedule: a node on the first tick, or below the ceiling on every
      NODE_SPAWN_RATE-th tick. */
  predicate NodeSpawnDue(elapsed: nat, count: nat) {
    elapsed == 0 || (count < MAX_NODES && elapsed % NODE_SPAWN_RATE == 0)
  }

  /** The same schedule for agents. */
  predicate AgentSpawnDue(elapsed: nat, count: nat) {
    elapsed == 0 || (count < MAX_AGENTS && elapsed % AGENT_SPAWN_RATE == 0)
  }

  /** spawn: a node at pos if one is due, then an agent on the sampled node if one is
      due, and the diff listing them. */
  function Spawned(w: World, pos: Point, draw: nat): (World, SimUpdate)
    requires (forall n :: n in w.nodeOrder ==> n in w.nodes) && (w.elapsed > 0 ==> w.nodeOrder != [])
  {
    var nodeDue := NodeSpawnDue(w.elapsed, |w.nodes|);
    var w1 := if nodeDue then AddNode(w, pos) else w;
    var agentDue := AgentSpawnDue(w.elapsed, |w1.agents|);
    var w2 := if agentDue then AddAgent(w1, draw) else w1;
    (w2, SimUpdate(if agentDue then [w1.nextId] else [], if nodeDue then [w.nextId] else [], [], [], [], []))
  }

  /** spawn keeps the store invariant, leaves at least one node, touches no edge, and
      only ever raises the counter. */
  lemma SpawnedSound(m: Metric, w: World, pos: Point, draw: nat)
    requires Settled(m, w) && InUnitSquare(pos)
    ensures var (r, _) := Spawned(w, pos, draw);
      && Sound(m, r) && r.nodeOrder != []
      && r.edges == w.edges && r.elapsed == w.elapsed && r.nextId >= w.nextId
  {
    OrderCounts(w);
    var nodeDue := NodeSpawnDue(w.elapsed, |w.nodes|);
    var w1 := if nodeDue then AddNode(w, pos) else w;
    if nodeDue {
      assert w.elapsed == 0 ==> w.nodeOrder == [];
      AddNodeSound(m, w, pos);
    }
    assert Sound(m, w1) && w1.nodeOrder != [] && |w1.agents| == |w.agents|;
    var agentDue := AgentSpawnDue(w.elapsed, |w1.agents|);
    var w2 := if agentDue then AddAgent(w1, draw) else w1;
    if agentDue {
      assert w.elapsed == 0 ==> w.agentOrder == [];
      AddAgentSound(m, w1, draw);
    }
    assert Spawned(w, pos, draw).0 == w2;
  }

  /** spawn's diff lists exactly what the schedule calls for: a node iff NodeSpawnDue,
      an agent iff AgentSpawnDue, at most one of each, no edges and nothing removed;
      and the stored keys grow by exactly the listed ids. */
  lemma SpawnedDiff(w: World, pos: Point, draw: nat)
    requires IdsIssued(w) && RecordsKeyed(w)
    requires (forall n :: n in w.nodeOrder ==> n in w.nodes) && (w.elapsed > 0 ==> w.nodeOrder != [])
    ensures var (r, u) := Spawned(w, pos, draw);
      && (u.addedNodes != [] <==> NodeSpawnDue(w.elapsed, |w.nodes|))
      && (u.addedAgents != [] <==> AgentSpawnDue(w.elapsed, |w.agents|))
      && |u.addedNodes| <= 1 && |u.addedAgents| <= 1
      && u.addedEdges == [] && u.removedAgents == [] && u.removedNodes == [] && u.removedEdges == []
      && (forall n :: n in r.nodes <==> n in w.nodes || n in u.addedNodes)
      && (forall a :: a in r.agents <==> a in w.agents || a in u.addedAgents)
  {
    var nodeDue := NodeSpawnDue(w.elapsed, |w.nodes|);
    var w1 := if nodeDue then AddNode(w, pos) else w;
    if nodeDue {
      AddNodeRecords(w, pos);
      AddNodeIds(w, pos);
      AddNodeKeyed(w, pos);
    }
    if AgentSpawnDue(w.elapsed, |w1.agents|) {
      AddAgentRecords(w1, draw);
    }
  }

  /** spawn leaves every node and agent already stored as it was. */
  lemma SpawnedKeeps(w: World, pos: Point, draw: nat)
    requires IdsIssued(w) && RecordsKeyed(w)
    requires (forall n :: n in w.nodeOrder ==> n in w.nodes) && (w.elapsed > 0 ==> w.nodeOrder != [])
    ensures var (r, u) := Spawned(w, pos, draw);
      && (forall n :: n in w.nodes ==> r.nodes[n] == w.nodes[n])
      && (forall a :: a in w.agents ==> r.agents[a] == w.agents[a])
  {
    var nodeDue := NodeSpawnDue(w.elapsed, |w.nodes|);
    var w1 := if nodeDue then AddNode(w, pos) else w;
    if nodeDue {
      AddNodeRecords(w, pos);
      AddNodeIds(w, pos);
      AddNodeKeyed(w, pos);
    }
    if AgentSpawnDue(w.elapsed, |w1.agents|) {
      AddAgentRecords(w1, draw);
    }
  }

  /** The records spawn adds: the new node at pos with no edges; the new agent under
      its own key, standing on a stored node's position with that node as both
      destinations and no edge. */
  lemma SpawnedRecords(w: World, pos: Point, draw: nat)
    requires IdsIssued(w) && RecordsKeyed(w)
    requires (forall n :: n in w.nodeOrder ==> n in w.nodes) && (w.elapsed > 0 ==> w.nodeOrder != [])
    ensures var (r, u) := Spawned(w, pos, draw);
      && (forall n :: n in u.addedNodes ==> n !in w.nodes && r.nodes[n] == Node(n, pos, []))
      && (forall a :: a in u.addedAgents ==>
            && a !in w.agents
            && var ag := r.agents[a];
            && ag.id == a && ag.currentDest == ag.finalDest && ag.currentEdge == None
            && ag.currentDest in r.nodes && ag.position == r.nodes[ag.currentDest].position)
  {
    var nodeDue := NodeSpawnDue(w.elapsed, |w.nodes|);
    var w1 := if nodeDue then AddNode(w, pos) else w;
    if nodeDue {
      AddNodeRecords(w, pos);
      AddNodeIds(w, pos);
      AddNodeKeyed(w, pos);
    }
    if AgentSpawnDue(w.elapsed, |w1.agents|) {
      AddAgentRecords(w1, draw);
    }
  }

  /** Past tick 0 the ceilings hold with equality allowed: spawn never takes the
      number of nodes above MAX_NODES or of agents above MAX_AGENTS. */
  lemma SpawnRespectsCeilings(m: Metric, w: World, pos: Point, draw: nat)
    requires Settled(m, w) && InUnitSquare(pos)
    ensures var (r, _) := Spawned(w, pos, draw);
      |r.nodes| <= MAX_NODES && |r.agents| <= MAX_AGENTS
  {
    SpawnedSound(m, w, pos, draw);
    OrderCounts(Spawned(w, pos, draw).0);
  }

  // ----- tick, one agent (Sim.ts lines 239-284) -----

  /** The final destination after arrival (Sim.ts lines 242-244): a sampled node when
      the agent has reached its final destination, the old one otherwise. */
  function Retarget(w: World, a: Agent, draw: nat): Id
    requires w.nodeOrder != []
  {
    if a.currentDest == a.finalDest then Sample(w.nodeOrder, draw) else a.finalDest
  }

  /** The store after the router has chosen step s from node src for an agent, whose
      updated record is a (Sim.ts lines 249-278): a fresh pair of edges when s is
      off-graph, one more use of s's edge otherwise. Returns the minted ids. */
  function Settle(w: World, id: Id, a: Agent, src: Id, s: Step): (World, seq<Id>)
    requires src in w.nodes && s.hop in w.nodes && (s.edge.Some? ==> s.edge.value in w.edges)
  {
    if s.edge.None? then (PutAgent(MintPair(w, src, s.hop), id, a), [w.nextId, w.nextId + 1])
    else (PutAgent(Reinforce(w, s.edge.value), id, a), [])
  }

  /** Settling keeps the invariant, for an agent record that heads for the step's hop
      along the step's edge. */
  lemma SettleSound(m: Metric, w: World, id: Id, a: Agent, src: Id, s: Step)
    requires Sound(m, w) && id in w.agents && a.id == id
    requires src in w.nodes && s.hop in w.nodes
    requires s.edge.Some? ==> s.edge.value in w.edges && w.edges[s.edge.value].dst == s.hop
    requires InUnitSquare(a.position) && a.finalDest in w.nodes
    requires a.currentDest == s.hop && a.currentEdge == s.edge
    ensures Sound(m, Settle(w, id, a, src, s).0)
  {
    if s.edge.None? {
      var w1 := MintPair(w, src, s.hop);
      MintPairSound(m, w, src, s.hop);
      MintPairNode(w, src, s.hop, src);
      assert AgentPlaced(w1, a);
      PutAgentSound(m, w1, id, a);
    } else {
      var w1 := Reinforce(w, s.edge.value);
      ReinforceSound(m, w, s.edge.value);
      assert AgentPlaced(w1, a);
      PutAgentSound(m, w1, id, a);
    }
  }

  /** Settling grows the store by exactly the minted ids. */
  lemma SettleGrows(w: World, id: Id, a: Agent, src: Id, s: Step)
    requires IdsIssued(w) && id in w.agents
    requires src in w.nodes && s.hop in w.nodes && (s.edge.Some? ==> s.edge.value in w.edges)
    ensures var (r, added) := Settle(w, id, a, src, s);
      Grows(w, r, added)
  {
    if s.edge.None? {
      var w1 := MintPair(w, src, s.hop);
      var added := [w.nextId, w.nextId + 1];
      MintPairGrows(w, src, s.hop);
      MintPairNode(w, src, s.hop, src);
      PutAgentGrows(w1, id, a);
      GrowsTrans(w, w1, PutAgent(w1, id, a), added, []);
      assert added + [] == added;
    } else {
      var w1 := Reinforce(w, s.edge.value);
      ReinforceGrows(w, s.edge.value);
      PutAgentGrows(w1, id, a);
      var none: seq<Id> := [];
      GrowsTrans(w, w1, PutAgent(w1, id, a), none, none);
      assert none + none == none;
    }
  }

  /** Off the graph, a fresh pair of edges is minted, src to hop and hop to src, each
      used once, now; along edge e, nothing is minted, and e's uses rises by one and
      its last use becomes now. The agent's record is stored, and no other edge changes. */
  lemma SettleEffects(w: World, id: Id, a: Agent, src: Id, s: Step)
    requires IdsIssued(w) && src in w.nodes && s.hop in w.nodes && (s.edge.Some? ==> s.edge.value in w.edges)
    ensures var (r, added) := Settle(w, id, a, src, s);
      && r.agents[id] == a
      && (s.edge.None? ==>
            && added == [w.nextId, w.nextId + 1]
            && r.edges[w.nextId] == Edge(w.nextId, src, s.hop, 1, w.elapsed)
            && r.edges[w.nextId + 1] == Edge(w.nextId + 1, s.hop, src, 1, w.elapsed))
      && (s.edge.Some? ==>
            && added == []
            && r.edges[s.edge.value].uses == w.edges[s.edge.value].uses + 1
            && r.edges[s.edge.value].lastUse == w.elapsed)
      && (forall e :: e in w.edges && s.edge != Some(e) ==> e in r.edges && r.edges[e] == w.edges[e])
  {
    if s.edge.None? {
      MintPairGrows(w, src, s.hop);
    } else {
      ReinforceGrows(w, s.edge.value);
    }
  }

  /** What moving agent id needs: its current destination and edge are stored. */
  ghost predicate Movable(m: Metric, w: World, id: Id) {
    && Lawful(m) && id in w.agents
    && w.agents[id].currentDest in w.nodes
    && (w.agents[id].currentEdge.Some? ==> w.agents[id].currentEdge.value in w.edges)
  }

  /** What rerouting agent id needs: the router's graph is well formed, both of the
      agent's destinations are stored, and there is a node to sample. */
  ghost predicate Ready(m: Metric, w: World, id: Id) {
    && Wf(GraphOf(m, w)) && Movable(m, w, id)
    && w.agents[id].finalDest in w.nodes
    && w.nodeOrder != [] && (forall n :: n in w.nodeOrder ==> n in w.nodes)
  }

  lemma SoundReady(m: Metric, w: World, id: Id)
    requires Sound(m, w) && id in w.agents
    ensures Ready(m, w, id)
  {
    assert AgentPlaced(w, w.agents[id]);
    assert w.agents[id].currentDest in w.nodeOrder;
  }

  /** What an arrived agent does (Sim.ts lines 242-278): retarget, ask the router for
      the next step from the node it stands on, and settle on it: the agent takes the
      step's hop and edge as its current destination and edge. */
  function Arrive(m: Metric, w: World, id: Id, draw: nat): (World, seq<Id>)
    requires Ready(m, w, id)
  {
    var a := w.agents[id];
    var t := Retarget(w, a, draw);
    RouteLands(GraphOf(m, w), a.currentDest, t);
    var s := Route(GraphOf(m, w), a.currentDest, t);
    Settle(w, id, a.(finalDest := t, currentDest := s.hop, currentEdge := s.edge), a.currentDest, s)
  }

  /** An arrival keeps the invariant and grows the store by exactly the minted ids;
      the agent's final destination becomes t, and it heads for the hop of the
      router's step from its node to t, along that step's edge. */
  lemma ArriveSound(m: Metric, w: World, id: Id, draw: nat)
    requires Sound(m, w) && id in w.agents
    ensures Ready(m, w, id)
    ensures var (r, added) := Arrive(m, w, id, draw);
      var a := w.agents[id];
      var t := Retarget(w, a, draw);
      t in w.nodes &&
      var s := Route(GraphOf(m, w), a.currentDest, t);
      && Sound(m, r) && Grows(w, r, added)
      && r == Settle(w, id, a.(finalDest := t, currentDest := s.hop, currentEdge := s.edge), a.currentDest, s).0
  {
    SoundReady(m, w, id);
    var a := w.agents[id];
    assert AgentPlaced(w, a);
    var t := Retarget(w, a, draw);
    RouteLands(GraphOf(m, w), a.currentDest, t);
    var s := Route(GraphOf(m, w), a.currentDest, t);
    var a1 := a.(finalDest := t, currentDest := s.hop, currentEdge := s.edge);
    SettleSound(m, w, id, a1, a.currentDest, s);
    SettleGrows(w, id, a1, a.currentDest, s);
  }

  /** After an arrival the agent can move: its new destination and edge are stored. */
  lemma ArriveMovable(m: Metric, w: World, id: Id, draw: nat)
    requires Ready(m, w, id)
    ensures Movable(m, Arrive(m, w, id, draw).0, id)
  {
    var a := w.agents[id];
    var t := Retarget(w, a, draw);
    RouteLands(GraphOf(m, w), a.currentDest, t);
  }

  /** The motion of Sim.ts line 283: the agent takes one step towards its current
      destination. */
  function Move(m: Metric, w: World, id: Id): World
    requires Movable(m, w, id)
  {
    var a := w.agents[id];
    PutAgent(w, id, a.(position := NextPosition(GraphOf(m, w), a).value))
  }

  /** Moving keeps the invariant (the agent stays in the unit square) and changes
      only the agent's position. */
  lemma MoveSound(m: Metric, w: World, id: Id)
    requires Sound(m, w) && id in w.agents
    ensures Movable(m, w, id)
    ensures Sound(m, Move(m, w, id)) && Grows(w, Move(m, w, id), [])
    ensures var r := Move(m, w, id);
      && r.nodes == w.nodes && r.edges == w.edges
      && (forall b :: b in w.agents && b != id ==> r.agents[b] == w.agents[b])
    ensures Move(m, w, id).agents[id] ==
      w.agents[id].(position := Advance(m, w.agents[id].position,
                                        w.nodes[w.agents[id].currentDest].position,
                                        Speed(GraphOf(m, w), w.agents[id])))
  {
    var a := w.agents[id];
    assert AgentPlaced(w, a);
    var a1 := a.(position := NextPosition(GraphOf(m, w), a).value);
    assert AgentPlaced(w, a1);
    PutAgentSound(m, w, id, a1);
    PutAgentGrows(w, id, a1);
  }

  /** The body of tick's forEach for agent id: arrive if at the current destination,
      then move in every case. Returns the new state and the minted ids. */
  function AgentStep(m: Metric, w: World, id: Id, draw: nat): (World, seq<Id>)
    requires Ready(m, w, id)
  {
    var a := w.agents[id];
    if AtDestination(GraphOf(m, w), a).value then
      ArriveMovable(m, w, id, draw);
      var (w1, added) := Arrive(m, w, id, draw);
      (Move(m, w1, id), added)
    else
      (Move(m, w, id), [])
  }

  lemma AgentStepSound(m: Metric, w: World, id: Id, draw: nat)
    requires Sound(m, w) && id in w.agents
    ensures Ready(m, w, id)
    ensures var (r, added) := AgentStep(m, w, id, draw);
      Sound(m, r) && Grows(w, r, added)
  {
    SoundReady(m, w, id);
    var a := w.agents[id];
    if AtDestination(GraphOf(m, w), a).value {
      ArriveSound(m, w, id, draw);
      var (w1, added) := Arrive(m, w, id, draw);
      MoveSound(m, w1, id);
      GrowsTrans(w, w1, Move(m, w1, id), added, []);
      assert added + [] == added;
    } else {
      MoveSound(m, w, id);
    }
  }

  // ----- tick, all agents (Sim.ts lines 235-289) -----

  /** tick's forEach over the agents in `order`, threading the state and collecting
      the minted ids; redraw gives each agent's random pick of a new final destination. */
  function Sweep(m: Metric, w: World, order: seq<Id>, redraw: Id -> nat): (World, seq<Id>)
    requires Sound(m, w) && forall x :: x in order ==> x in w.agents
    decreases |order|
  {
    if order == [] then (w, [])
    else
      AgentStepSound(m, w, order[0], redraw(order[0]));
      var (w1, a1) := AgentStep(m, w, order[0], redraw(order[0]));
      var (w2, a2) := Sweep(m, w1, order[1..], redraw);
      (w2, a1 + a2)
  }

  lemma {:induction false} SweepSound(m: Metric, w: World, order: seq<Id>, redraw: Id -> nat)
    requires Sound(m, w) && forall x :: x in order ==> x in w.agents
    ensures var (r, added) := Sweep(m, w, order, redraw);
      Sound(m, r) && Grows(w, r, added)
    decreases |order|
  {
    if order == [] {
      assert Grows(w, w, []);
    } else {
      AgentStepSound(m, w, order[0], redraw(order[0]));
      var (w1, a1) := AgentStep(m, w, order[0], redraw(order[0]));
      SweepSound(m, w1, order[1..], redraw);
      var (w2, a2) := Sweep(m, w1, order[1..], redraw);
      GrowsTrans(w, w1, w2, a1, a2);
    }
  }

  /** One agent's step of the sweep: the rest of the sweep starts from its result. */
  lemma SweepStep(m: Metric, w: World, order: seq<Id>, redraw: Id -> nat)
    requires Sound(m, w) && order != [] && forall x :: x in order ==> x in w.agents
    ensures Ready(m, w, order[0])
    ensures var (w1, a1) := AgentStep(m, w, order[0], redraw(order[0]));
      && Sound(m, w1) && (forall x :: x in order[1..] ==> x in w1.agents)
      && Sweep(m, w, order, redraw).0 == Sweep(m, w1, order[1..], redraw).0
      && Sweep(m, w, order, redraw).1 == a1 + Sweep(m, w1, order[1..], redraw).1
  {
    AgentStepSound(m, w, order[0], redraw(order[0]));
    assert forall x :: x in order[1..] ==> x in order;
  }

  /** The sweep's progress after one more agent: the sweep from the agent's result
      over the remaining agents still ends in the same state, and the ids minted so
      far grow by the agent's. */
  lemma SweepAdvance(m: Metric, w: World, rest: seq<Id>, redraw: Id -> nat, acc: seq<Id>, final: World, all: seq<Id>)
    requires Sound(m, w) && rest != [] && forall x :: x in rest ==> x in w.agents
    requires Sweep(m, w, rest, redraw).0 == final && acc + Sweep(m, w, rest, redraw).1 == all
    ensures Ready(m, w, rest[0])
    ensures var (r, added) := AgentStep(m, w, rest[0], redraw(rest[0]));
      && Sound(m, r) && (forall x :: x in rest[1..] ==> x in r.agents)
      && Sweep(m, r, rest[1..], redraw).0 == final
      && (acc + added) + Sweep(m, r, rest[1..], redraw).1 == all
  {
    SweepStep(m, w, rest, redraw);
    var (r, added) := AgentStep(m, w, rest[0], redraw(rest[0]));
    ConcatAssoc(acc, added, Sweep(m, r, rest[1..], redraw).1);
  }

  lemma ConcatAssoc(a: seq<Id>, b: seq<Id>, c: seq<Id>)
    ensures (a + b) + c == a + (b + c)
  {
  }

  /** tick: spawn, run every agent in enumeration order (agents spawned this tick
      included), report the spawn diff with the minted edges, and advance the clock. */
  function Ticked(m: Metric, w: World, pos: Point, spawnDraw: nat, redraw: Id -> nat): (World, SimUpdate)
    requires Settled(m, w) && InUnitSquare(pos)
  {
    SpawnedSound(m, w, pos, spawnDraw);
    var (w1, u) := Spawned(w, pos, spawnDraw);
    var (w2, added) := Sweep(m, w1, w1.agentOrder, redraw);
    (Clocked(w2), u.(addedEdges := added))
  }

  /** A tick keeps the between-ticks invariant, advances the clock by exactly one,
      and reports the spawn diff together with the minted edges. */
  lemma TickSettled(m: Metric, w: World, pos: Point, spawnDraw: nat, redraw: Id -> nat)
    requires Settled(m, w) && InUnitSquare(pos)
    ensures var (r, u) := Ticked(m, w, pos, spawnDraw, redraw);
      var (_, su) := Spawned(w, pos, spawnDraw);
      && Settled(m, r)
      && r.elapsed == w.elapsed + 1
      && u == su.(addedEdges := u.addedEdges)
  {
    SpawnedSound(m, w, pos, spawnDraw);
    var (w1, su) := Spawned(w, pos, spawnDraw);
    SweepSound(m, w1, w1.agentOrder, redraw);
    var (w2, added) := Sweep(m, w1, w1.agentOrder, redraw);
    ClockedSettled(m, w2);
  }

  /** What a tick does to the edges: the minted edges come in mirrored pairs of fresh
      ids and are the only new edges; every old edge is kept with uses that never
      drop; and a store whose every edge has a mirror keeps that property. */
  lemma TickEdges(m: Metric, w: World, pos: Point, spawnDraw: nat, redraw: Id -> nat)
    requires Settled(m, w) && InUnitSquare(pos)
    ensures var (r, u) := Ticked(m, w, pos, spawnDraw, redraw);
      && Keeps(w.edges, r.edges)
      && Paired(r.edges, u.addedEdges)
      && (forall e :: e in r.edges <==> e in w.edges || e in u.addedEdges)
      && (forall e :: e in u.addedEdges ==> e !in w.edges && w.nextId <= e < r.nextId)
      && Distinct(u.addedEdges)
      && (Mirrored(w.edges) ==> Mirrored(r.edges))
  {
    SpawnedSound(m, w, pos, spawnDraw);
    var (w1, su) := Spawned(w, pos, spawnDraw);
    SweepSound(m, w1, w1.agentOrder, redraw);
    var (w2, added) := Sweep(m, w1, w1.agentOrder, redraw);
    if Mirrored(w.edges) {
      MirroredGrows(w.edges, w2.edges, added);
    }
  }

  /** The empty store a Sim starts from. */
  function Empty(): World {
    World(map[], map[], map[], [], [], 0, 0)
  }

  /** The store after the first spawn: node 0 at pos, agent 1 standing on it. */
  function Founded(pos: Point): World {
    World(map[0 := Node(0, pos, [])], map[], map[1 := Agent(1, pos, 0, 0, None)], [0], [1], 2, 0)
  }

  /** The store after agent 1's first arrival: the self-loops 2 and 3 at node 0. */
  function Looped(pos: Point): World {
    World(map[0 := Node(0, pos, [2, 3])],
          map[2 := Edge(2, 0, 0, 1, 0), 3 := Edge(3, 0, 0, 1, 0)],
          map[1 := Agent(1, pos, 0, 0, None)], [0], [1], 4, 0)
  }

  lemma FirstSpawn(m: Metric, pos: Point, draw: nat)
    requires Lawful(m) && InUnitSquare(pos)
    ensures Settled(m, Empty())
    ensures Spawned(Empty(), pos, draw) == (Founded(pos), SimUpdate([1], [0], [], [], [], []))
  {
    var w1 := AddNode(Empty(), pos);
    assert |Empty().nodes| == 0;
    assert w1 == World(map[0 := Node(0, pos, [])], map[], map[], [0], [], 1, 0);
    assert Sample(w1.nodeOrder, draw) == 0;
    assert AddAgent(w1, draw) == Founded(pos);
  }

  lemma FirstMint(pos: Point)
    ensures Settle(Founded(pos), 1, Agent(1, pos, 0, 0, None), 0, Step(0, None)) == (Looped(pos), [2, 3])
  {
    var w1 := Founded(pos);
    var n := AppendEdge(AppendEdge(w1.nodes, 0, 2), 0, 3);
    assert n[0] == Node(0, pos, [2, 3]);
    assert n == map[0 := Node(0, pos, [2, 3])];
    assert MintPair(w1, 0, 0).agents == Looped(pos).agents;
    assert Looped(pos).agents[1 := Agent(1, pos, 0, 0, None)] == Looped(pos).agents;
  }

  lemma FirstArrival(m: Metric, pos: Point, draw: nat)
    requires Lawful(m) && InUnitSquare(pos)
    ensures Sound(m, Founded(pos))
    ensures Arrive(m, Founded(pos), 1, draw) == (Looped(pos), [2, 3])
  {
    var w1 := Founded(pos);
    SelfRouteIsOffGraph(GraphOf(m, w1), 0);
    var a1 := Agent(1, pos, 0, 0, None);
    assert Retarget(w1, a1, draw) == Sample([0], draw) == 0;
    FirstMint(pos);
  }

  lemma FirstStep(m: Metric, pos: Point, draw: nat)
    requires Lawful(m) && InUnitSquare(pos)
    ensures Sound(m, Founded(pos))
    ensures AgentStep(m, Founded(pos), 1, draw) == (Looped(pos), [2, 3])
  {
    var w1 := Founded(pos);
    StandingAgentArrived(GraphOf(m, w1), w1.agents[1]);
    FirstArrival(m, pos, draw);
    ArrivedAgentStays(GraphOf(m, Looped(pos)), Looped(pos).agents[1]);
  }

  lemma FirstSweep(m: Metric, pos: Point, redraw: Id -> nat)
    requires Lawful(m) && InUnitSquare(pos)
    ensures Sound(m, Founded(pos))
    ensures Sweep(m, Founded(pos), [1], redraw) == (Looped(pos), [2, 3])
  {
    FirstStep(m, pos, redraw(1));
    AgentStepSound(m, Founded(pos), 1, redraw(1));
    assert Sweep(m, Looped(pos), [], redraw) == (Looped(pos), []);
    assert [1][1..] == [] && [2, 3] + [] == [2, 3];
  }

  /** The first tick from the empty store: node 0 spawns at pos and agent 1 on it;
      the agent has arrived, picks node 0 again, finds no route other than staying,
      and so mints the self-loops 2 and 3 at node 0, on no edge and without moving. */
  lemma FirstTick(m: Metric, pos: Point, spawnDraw: nat, redraw: Id -> nat)
    requires Lawful(m) && InUnitSquare(pos)
    ensures Settled(m, Empty())
    ensures Ticked(m, Empty(), pos, spawnDraw, redraw) == (Clocked(Looped(pos)), SimUpdate([1], [0], [2, 3], [], [], []))
  {
    FirstSpawn(m, pos, spawnDraw);
    FirstSweep(m, pos, redraw);
  }
}
