/** The simulation engine: the Sim class of src/core/Sim.ts, holding the id-keyed
    stores of nodes, edges and agents, the shared id counter and the tick counter,
    and updating them in place. Each operation is proved to compute the function of
    Transitions (or Router) that specifies it. */
module Engine {
  import opened SimTypes
  import opened Geometry
  import opened Router
  import opened Motion
  import opened State
  import opened Transitions

  class Sim {
    /** getDistance and Math.log. */
    const geo: Metric
    var nodes: map<Id, Node>
    var edges: map<Id, Edge>
    var agents: map<Id, Agent>
    /** The keys of nodes and agents in insertion order, the order in which a
        JavaScript Map enumerates them. */
    var nodeOrder: seq<Id>
    var agentOrder: seq<Id>
    var nextId: nat
    var elapsed: nat

    /** The fields as a value. */
    function State(): World
      reads this
    {
      World(nodes, edges, agents, nodeOrder, agentOrder, nextId, elapsed)
    }

    /** The part of the state the router reads. */
    function View(): Graph
      reads this
    {
      GraphOf(geo, State())
    }

    /** The invariant between ticks. */
    ghost predicate Valid()
      reads this
    {
      Settled(geo, State())
    }

    constructor(m: Metric)
      requires Lawful(m)
      ensures Valid() && geo == m && State() == Empty()
    {
      geo := m;
      nodes, edges, agents := map[], map[], map[];
      nodeOrder, agentOrder := [], [];
      nextId, elapsed := 0, 0;
    }

    /** getAgent: the stored agent, or the error getAgent throws. */
    function GetAgent(id: Id): (r: Result<Agent>)
      reads this
      ensures r.Ok? <==> id in agents
      ensures r.Ok? ==> r.value == agents[id]
      ensures r.Err? ==> r.error == NoAgent(id)
    {
      if id in agents then Ok(agents[id]) else Err(NoAgent(id))
    }

    /** getNode: the stored node, or the error getNode throws. */
    function GetNode(id: Id): (r: Result<Node>)
      reads this
      ensures r.Ok? <==> id in nodes
      ensures r.Ok? ==> r.value == nodes[id]
      ensures r.Err? ==> r.error == NoNode(id)
    {
      if id in nodes then Ok(nodes[id]) else Err(NoNode(id))
    }

    /** getEdge: the stored edge, or the error getEdge throws. */
    function GetEdge(id: Id): (r: Result<Edge>)
      reads this
      ensures r.Ok? <==> id in edges
      ensures r.Ok? ==> r.value == edges[id]
      ensures r.Err? ==> r.error == NoEdge(id)
    {
      if id in edges then Ok(edges[id]) else Err(NoEdge(id))
    }

    /** getNextId: hand out the counter and advance it. */
    method NextId() returns (id: Id)
      modifies this`nextId
      ensures id == old(nextId) && nextId == old(nextId) + 1
    {
      id := nextId;
      nextId := nextId + 1;
    }

    /** getScaledDistance, with its two node lookups. */
    method ScaledDistance(src: Id, dst: Id) returns (r: Result<real>)
      requires Wf(View())
      ensures src !in nodes ==> r == Err(NoNode(src))
      ensures src in nodes && dst !in nodes ==> r == Err(NoNode(dst))
      ensures src in nodes && dst in nodes ==> r == Ok(ScaledDist(View(), src, dst))
    {
      if src !in nodes {
        return Err(NoNode(src));
      }
      if dst !in nodes {
        return Err(NoNode(dst));
      }
      var srcNode := nodes[src];
      var dstNode := nodes[dst];
      var ids := srcNode.edges;
      var usable: Option<Edge> := None;
      var i := 0;
      while i < |ids|
        invariant i <= |ids|
        invariant FirstEdgeTo(edges, ids, dst, i) == FirstEdgeTo(edges, ids, dst, 0)
        invariant usable == None
      {
        var edge := edges[ids[i]];
        if edge.dst == dst {
          usable := Some(edge);
          break;
        }
        i := i + 1;
      }
      var distance := geo.distance(srcNode.position, dstNode.position);
      var scaled: real;
      if usable.Some? {
        scaled := distance / ScaledSpeed(geo, usable.value.uses);
      } else {
        scaled := distance / BASE_AGENT_SPEED;
      }
      r := Ok(scaled);
    }

    /** getNextStep: scan from's edges for a hop whose lookahead beats the running best. */
    method NextStep(from: Id, to: Id) returns (r: Result<Step>)
      requires Wf(View())
      ensures from !in nodes ==> r == Err(NoNode(from))
      ensures from in nodes && to !in nodes ==> r == Err(NoNode(to))
      ensures from in nodes && to in nodes ==> r == Ok(Route(View(), from, to))
    {
      if from !in nodes {
        return Err(NoNode(from));
      }
      if to !in nodes {
        return Err(NoNode(to));
      }
      ghost var g := View();
      var cands := nodes[from].edges;
      var dest := to;
      var edge: Option<Id> := None;
      var base := ScaledDistance(from, to);
      var dist := base.value;
      var i := 0;
      while i < |cands|
        invariant i <= |cands|
        invariant g == View() && cands == g.nodes[from].edges
        invariant RouteFrom(g, from, to, i, dist, Step(dest, edge)) == Route(g, from, to)
      {
        assert Wf(g) && from in g.nodes && to in g.nodes;
        var candidateId := cands[i];
        var candidate := edges[candidateId];
        assert candidateId in g.nodes[from].edges && candidate == g.edges[candidateId];
        var scaled := ScaledDistance(from, candidate.dst);
        var rest := ScaledDistance(candidate.dst, to);
        var remaining := scaled.value + rest.value;
        assert scaled.value == HopCost(g, from, candidateId);
        assert remaining == Lookahead(g, from, to, candidateId);
        assert cands[i] == g.nodes[from].edges[i];
        if remaining < dist {
          dest := candidate.dst;
          dist := scaled.value;
          edge := Some(candidateId);
        }
        i := i + 1;
      }
      r := Ok(Step(dest, edge));
    }

    /** A node at pos under the next id, with no edges (Sim.ts lines 181-187). */
    method PutNode(pos: Point) returns (id: Id)
      modifies this
      ensures State() == AddNode(old(State()), pos) && id == old(nextId)
    {
      id := NextId();
      nodes := nodes[id := Node(id, pos, [])];
      nodeOrder := nodeOrder + [id];
    }

    /** An agent under the next id standing on the node sampled by draw, with that
        node as both destinations and no edge (Sim.ts lines 190-199). */
    method PutSpawnedAgent(draw: nat) returns (id: Id)
      requires nodeOrder != [] && forall n :: n in nodeOrder ==> n in nodes
      modifies this
      ensures State() == AddAgent(old(State()), draw) && id == old(nextId)
    {
      id := NextId();
      var spawnNode := nodes[Sample(nodeOrder, draw)];
      agents := agents[id := Agent(id, spawnNode.position, spawnNode.id, spawnNode.id, None)];
      agentOrder := agentOrder + [id];
    }

    /** spawn: a node at pos when one is due, then an agent on the node sampled by
        draw when one is due; pos and draw stand for Math.random and _.sample. */
    method Spawn(pos: Point, draw: nat) returns (u: SimUpdate)
      requires (forall n :: n in nodeOrder ==> n in nodes) && (elapsed > 0 ==> nodeOrder != [])
      modifies this
      ensures (State(), u) == Spawned(old(State()), pos, draw)
    {
      ghost var w := State();
      var addedNodes: seq<Id> := [];
      var addedAgents: seq<Id> := [];
      if elapsed == 0 || (|nodes| < MAX_NODES && elapsed % NODE_SPAWN_RATE == 0) {
        var id := PutNode(pos);
        addedNodes := addedNodes + [id];
      }
      ghost var w1 := State();
      assert w1 == if NodeSpawnDue(w.elapsed, |w.nodes|) then AddNode(w, pos) else w;
      assert addedNodes == if NodeSpawnDue(w.elapsed, |w.nodes|) then [w.nextId] else [];
      if elapsed == 0 || (|agents| < MAX_AGENTS && elapsed % AGENT_SPAWN_RATE == 0) {
        var id := PutSpawnedAgent(draw);
        addedAgents := addedAgents + [id];
      }
      assert State() == if AgentSpawnDue(w.elapsed, |w1.agents|) then AddAgent(w1, draw) else w1;
      assert addedAgents == if AgentSpawnDue(w.elapsed, |w1.agents|) then [w1.nextId] else [];
      u := SimUpdate(addedAgents, addedNodes, [], [], [], []);
    }

    /** Two mirrored edges between src and hop under the next two ids, each used
        once, now, and listed by its source (Sim.ts lines 249-268). */
    method MintEdges(src: Id, hop: Id) returns (id1: Id, id2: Id)
      requires src in nodes && hop in nodes
      modifies this
      ensures State() == MintPair(old(State()), src, hop) && id1 == old(nextId) && id2 == id1 + 1
    {
      id1 := NextId();
      id2 := NextId();
      edges := edges[id1 := Edge(id1, src, hop, 1, elapsed)];
      edges := edges[id2 := Edge(id2, hop, src, 1, elapsed)];
      nodes := nodes[src := nodes[src].(edges := nodes[src].edges + [id1])];
      nodes := nodes[hop := nodes[hop].(edges := nodes[hop].edges + [id2])];
    }

    /** One more use of edge e, now (Sim.ts lines 271-274). */
    method UseEdge(e: Id)
      requires e in edges
      modifies this
      ensures State() == Reinforce(old(State()), e)
    {
      var edge := edges[e];
      edges := edges[e := edge.(uses := edge.uses + 1, lastUse := elapsed)];
    }

    /** Mint a pair of edges for an off-graph step, or reinforce the step's edge,
        and store the agent's record (Sim.ts lines 248-278). */
    method TakeStep(id: Id, agent: Agent, src: Id, step: Step) returns (added: seq<Id>)
      requires src in nodes && step.hop in nodes && (step.edge.Some? ==> step.edge.value in edges)
      modifies this
      ensures (State(), added) == Settle(old(State()), id, agent, src, step)
    {
      if step.edge == None {
        var id1, id2 := MintEdges(src, step.hop);
        added := [id1, id2];
      } else {
        UseEdge(step.edge.value);
        added := [];
      }
      agents := agents[id := agent];
    }

    /** What tick does for an agent that has reached its current destination
        (Sim.ts lines 242-278): pick a new final destination if this was the final
        one, ask for the next step, then mint a pair of edges or reinforce the one
        chosen, and head for the step's hop along the step's edge. */
    method Reroute(id: Id, draw: nat) returns (added: seq<Id>)
      requires Ready(geo, State(), id)
      modifies this
      ensures (State(), added) == Arrive(geo, old(State()), id, draw)
    {
      ghost var w := State();
      var agent := agents[id];
      if agent.currentDest == agent.finalDest {
        agent := agent.(finalDest := Sample(nodeOrder, draw));
      }
      var src := agent.currentDest;
      RouteLands(View(), src, agent.finalDest);
      var nextStep := NextStep(src, agent.finalDest);
      var step := nextStep.value;
      agent := agent.(currentDest := step.hop, currentEdge := step.edge);
      added := TakeStep(id, agent, src, step);
    }

    /** The body of tick's forEach for agent id: reroute if it has arrived, then take
        one step of motion in every case. */
    method UpdateAgent(id: Id, draw: nat) returns (added: seq<Id>)
      requires Ready(geo, State(), id)
      modifies this
      ensures (State(), added) == AgentStep(geo, old(State()), id, draw)
    {
      ghost var w := State();
      added := [];
      if AtDestination(View(), agents[id]).value {
        ArriveMovable(geo, w, id, draw);
        added := Reroute(id, draw);
      }
      var agent := agents[id];
      agents := agents[id := agent.(position := NextPosition(View(), agent).value)];
    }

    /** The clock advance at the end of tick (Sim.ts line 287). */
    method AdvanceClock()
      modifies this`elapsed
      ensures State() == Clocked(old(State()))
    {
      elapsed := elapsed + 1;
    }

    /** tick's forEach over the agents in `order`. */
    method UpdateAll(order: seq<Id>, redraw: Id -> nat) returns (addedEdges: seq<Id>)
      requires Sound(geo, State()) && forall x :: x in order ==> x in agents
      modifies this
      ensures (State(), addedEdges) == Sweep(geo, old(State()), order, redraw)
    {
      ghost var swept := Sweep(geo, State(), order, redraw);
      addedEdges := [];
      var i := 0;
      assert order[i..] == order;
      while i < |order|
        invariant i <= |order|
        invariant Sound(geo, State()) && forall x :: x in order[i..] ==> x in agents
        invariant Sweep(geo, State(), order[i..], redraw).0 == swept.0
        invariant addedEdges + Sweep(geo, State(), order[i..], redraw).1 == swept.1
      {
        SweepAdvance(geo, State(), order[i..], redraw, addedEdges, swept.0, swept.1);
        assert order[i..][0] == order[i] && order[i..][1..] == order[i + 1..];
        var added := UpdateAgent(order[i], redraw(order[i]));
        addedEdges := addedEdges + added;
        i := i + 1;
      }
      ghost var last := State();
      assert order[i..] == [];
      assert Sweep(geo, last, [], redraw) == (last, []);
      assert last == swept.0 && addedEdges == swept.1;
    }

    /** tick: spawn, then update every agent in enumeration order, agents spawned
        this tick included, then advance the clock; the diff lists the spawned node
        and agent and the minted edges. */
    method Tick(pos: Point, spawnDraw: nat, redraw: Id -> nat) returns (u: SimUpdate)
      requires Valid() && InUnitSquare(pos)
      modifies this
      ensures (State(), u) == Ticked(geo, old(State()), pos, spawnDraw, redraw)
      ensures Valid()
    {
      ghost var w := State();
      TickSettled(geo, w, pos, spawnDraw, redraw);
      SpawnedSound(geo, w, pos, spawnDraw);
      ghost var spawned := Spawned(w, pos, spawnDraw);
      u := Spawn(pos, spawnDraw);
      ghost var w1 := State();
      assert w1 == spawned.0 && u == spawned.1;
      var addedEdges := UpdateAll(agentOrder, redraw);
      ghost var w2 := State();
      assert (w2, addedEdges) == Sweep(geo, w1, w1.agentOrder, redraw);
      AdvanceClock();
      u := u.(addedEdges := addedEdges);
    }
  }
}
