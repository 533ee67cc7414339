/** atDestination and getNextPosition of src/core/Sim.ts: the two pure reads the tick
    makes of an agent, over the nodes and edges of the store. */
module Motion {
  import opened SimTypes
  import opened Geometry
  import opened Router

  /** The agent's effective speed: the base speed off-graph, or its edge's scaled speed. */
  function Speed(g: Graph, agent: Agent): (r: real)
    requires Lawful(g.m) && (agent.currentEdge.Some? ==> agent.currentEdge.value in g.edges)
    ensures r >= BASE_AGENT_SPEED
    ensures agent.currentEdge.Some? ==> r == ScaledSpeed(g.m, g.edges[agent.currentEdge.value].uses)
  {
    match agent.currentEdge
    case Some(e) => ScaledSpeed(g.m, g.edges[e].uses)
    case None => BASE_AGENT_SPEED
  }

  /** atDestination: within OVERLAP_THRESHOLD of the current destination's node,
      which is looked up first. */
  function AtDestination(g: Graph, agent: Agent): (r: Result<bool>)
    ensures r.Err? <==> agent.currentDest !in g.nodes
    ensures r.Err? ==> r.error == NoNode(agent.currentDest)
    ensures r.Ok? ==>
      (r.value <==> g.m.distance(agent.position, g.nodes[agent.currentDest].position) < OVERLAP_THRESHOLD)
  {
    if agent.currentDest !in g.nodes then Err(NoNode(agent.currentDest))
    else Ok(g.m.distance(agent.position, g.nodes[agent.currentDest].position) < OVERLAP_THRESHOLD)
  }

  /** An agent standing exactly on its destination node has arrived. */
  lemma StandingAgentArrived(g: Graph, agent: Agent)
    requires Lawful(g.m) && agent.currentDest in g.nodes
    requires agent.position == g.nodes[agent.currentDest].position
    ensures AtDestination(g, agent) == Ok(true)
  {
    assert g.m.distance(agent.position, agent.position) == 0.0;
  }

  /** getNextPosition: look up the destination node, then the edge if the agent is on
      one, then take one step of motion at the agent's speed. */
  function NextPosition(g: Graph, agent: Agent): (r: Result<Point>)
    requires Lawful(g.m)
    ensures r.Ok? <==> agent.currentDest in g.nodes && (agent.currentEdge.Some? ==> agent.currentEdge.value in g.edges)
    ensures agent.currentDest !in g.nodes ==> r == Err(NoNode(agent.currentDest))
    ensures agent.currentDest in g.nodes && agent.currentEdge.Some? && agent.currentEdge.value !in g.edges ==>
      r == Err(NoEdge(agent.currentEdge.value))
    ensures r.Ok? ==> r.value == Advance(g.m, agent.position, g.nodes[agent.currentDest].position, Speed(g, agent))
    ensures r.Ok? && InUnitSquare(agent.position) && InUnitSquare(g.nodes[agent.currentDest].position) ==>
      InUnitSquare(r.value)
  {
    if agent.currentDest !in g.nodes then Err(NoNode(agent.currentDest))
    else if agent.currentEdge.Some? && agent.currentEdge.value !in g.edges then Err(NoEdge(agent.currentEdge.value))
    else
      var dest := g.nodes[agent.currentDest].position;
      AdvanceStaysInSquare(g.m, agent.position, dest, Speed(g, agent));
      Ok(Advance(g.m, agent.position, dest, Speed(g, agent)))
  }

  /** An agent that has arrived stays put: one step from its node's own position is that position. */
  lemma ArrivedAgentStays(g: Graph, agent: Agent)
    requires Lawful(g.m) && agent.currentDest in g.nodes
    requires agent.currentEdge.Some? ==> agent.currentEdge.value in g.edges
    requires agent.position == g.nodes[agent.currentDest].position
    ensures NextPosition(g, agent) == Ok(agent.position)
  {
    assert g.m.distance(agent.position, agent.position) == 0.0;
  }
}
