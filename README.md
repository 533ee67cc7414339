# Garden simulation engine, modelled in Dafny

This project models the simulation engine of the garden project, the `Sim` class
of `src/core/Sim.ts`. The engine keeps three stores keyed by id: nodes (points in
the unit square), directed edges between nodes, and agents that walk between
nodes. It also keeps one id counter shared by all three and a tick counter. On
every tick the engine does three things:

- It spawns a node and an agent on a schedule.
- It moves every agent one step.
- When an agent reaches its current destination, it asks a one-level-lookahead
  router for its next hop. If the hop is off the graph, it mints a mirrored pair
  of edges. Otherwise it reinforces the chosen edge, so that later agents travel
  faster along it.

The model is split into modules:

- `SimTypes` (types.dfy): the entities (`Node`, `Edge`, `Agent`, `SimUpdate`), ids,
  the lookup errors and the configuration constants.
- `Geometry` (geometry.dfy): `getScaledSpeed` and the motion arithmetic of
  `getNextPosition`, over an abstract `Metric`. The metric stands for
  `getDistance` (`Math.sqrt`) and `Math.log`. `Lawful` states the only laws the
  engine relies on.
- `Router` (router.dfy): `getScaledDistance` and `getNextStep` as functions of
  the graph (`ScaledDist`, `Route`), with what their results mean.
- `Motion` (motion.dfy): `atDestination` and `getNextPosition`.
- `State` (state.dfy): the whole store as a value (`World`), and the store
  invariant `Sound`. Sound says:
  - ids are issued by the counter and never shared;
  - every record carries its own key;
  - edges and node edge lists agree;
  - every agent stands in the unit square and heads for stored nodes;
  - the stores are capped.
  This module also holds the elementary updates a tick makes (`AddNode`,
  `AddAgent`, `MintPair`, `Reinforce`, `PutAgent`, `Clocked`), each proved to
  keep the invariant.
- `Transitions` (transitions.dfy): `spawn` (`Spawned`), one agent's part of
  `tick` (`Arrive`, `Move`, `AgentStep`), the sweep over all agents (`Sweep`) and
  `tick` itself (`Ticked`). The lemmas here state what each transition promises.
- `Engine` (engine.dfy): the class `Sim`. It has one field per store, plus the
  key orders that JavaScript `Map` enumeration follows. Its methods update the
  fields in place. Each method is proved to compute the `Transitions` or
  `Router` function that specifies it. The loops of `getScaledDistance` and
  `getNextStep` are `while` loops with their invariants.

Behaviour of the code that the model keeps as written:

- The running best becomes the winner's hop cost (Sim.ts line 227), not its
  lookahead total. A later candidate whose total beats the winner's total can
  therefore still lose. `Router.StaleBestExample` shows a graph where this happens.
- After a pair of edges is minted, the agent's current edge is the router's
  `null` (Sim.ts line 278), not the new forward edge. The agent therefore crosses
  the new edge at the base speed.
- An edge that leads straight to the destination is never chosen. Its lookahead
  total equals the baseline it would have to beat strictly
  (`Router.DirectEdgeNeverChosen`).
- On the first tick the only agent stands on the only node and routes to that
  node again, so the engine mints a pair of self-loops (`Transitions.FirstTick`).

## Model

| member | source | states |
|---|---|---|
| Geometry.ScaledSpeed | src/core/Sim.ts:143-145 | the speed on an edge used n times is the base speed plus log(n + 1) times the scale, and never below the base speed |
| Geometry.FasterWithUse | src/core/Sim.ts:143-145 | an edge used more often is strictly faster |
| Geometry.ReinforcementShortens | src/core/Sim.ts:130-137 | a positive distance along an edge used more often costs strictly less, and along any edge no more than off the graph |
| Geometry.Advance | src/core/Sim.ts:165-173 | when the step covers the remaining distance (or the distance is zero) the result is the destination exactly; otherwise the fraction 0 < speed/dist < 1 of the way along the line |
| Geometry.AdvanceStaysInSquare | src/core/Sim.ts:165-173 | a step from a point in the unit square towards one in it stays in it |
| Geometry.AdvanceProgress | src/core/Sim.ts:152-174 | for a Euclidean-like metric, one step closes the gap by exactly the speed, or closes it entirely |
| Geometry.TravelArrives | src/core/Sim.ts:147-174 | moving at least v per tick towards a fixed destination, an agent is on it, so within OVERLAP_THRESHOLD, after any k ticks with k * v at least the distance |
| Router.FirstEdgeTo | src/core/Sim.ts:121-128 | the index found is the first of the node's edges that leads to dst; none is found only when no edge leads there |
| Router.ScaledDist | src/core/Sim.ts:116-141 | the scaled distance is non-negative and zero from a node to itself |
| Router.ChosenImprove | src/core/Sim.ts:225-229 | a candidate whose lookahead total strictly beats the running best becomes the choice, and the scan's facts still hold |
| Router.ChosenKeep | src/core/Sim.ts:225-229 | a candidate that does not strictly beat the running best leaves the choice, and the scan's facts still hold |
| Router.RouteFromChosen | src/core/Sim.ts:219-230 | scanning the remaining candidates ends in a state whose facts hold for all candidates |
| Router.RouteChoice | src/core/Sim.ts:211-233 | the step is (to, null) exactly when no candidate's lookahead beats the baseline; otherwise it is candidate k's edge, which beats the baseline and is strictly better than every earlier candidate, and no later candidate undercuts its hop cost (conditions every choice meets, not a characterisation that singles it out) |
| Router.RouteLands | src/core/Sim.ts:211-233 | the step is either (to, null) or (e.dst, e) for an edge e that the source node lists, and its hop is a stored node |
| Router.SelfRouteIsOffGraph | src/core/Sim.ts:215-230 | routing from a node to itself returns (node, null) |
| Router.DirectEdgeNeverChosen | src/core/Sim.ts:223-225 | the router never chooses an edge that leads straight to the destination |
| Router.StaleBestExample | src/core/Sim.ts:225-228 | on a concrete graph, edge 5's total of 350 beats edge 4's total of 375, yet edge 4 is chosen, because the best became edge 4's hop cost of 125 |
| Motion.Speed | src/core/Sim.ts:157-163 | an agent's speed is its edge's scaled speed when it is on an edge, and never below the base speed |
| Motion.AtDestination | src/core/Sim.ts:147-150 | fails with NoNode exactly when the current destination is not stored; otherwise true iff the distance to it is below OVERLAP_THRESHOLD |
| Motion.StandingAgentArrived | src/core/Sim.ts:147-150 | an agent standing on its destination node has arrived |
| Motion.NextPosition | src/core/Sim.ts:152-174 | fails with NoNode for a missing destination and with NoEdge for a missing edge; otherwise one Advance towards the destination at the agent's speed, staying in the unit square |
| Motion.ArrivedAgentStays | src/core/Sim.ts:152-174 | an agent standing on its destination does not move |
| State.OrderCounts | src/core/Sim.ts:180-189 | the number of stored nodes and agents (Map.size) is the length of their key orders |
| State.AppendEdge | src/core/Sim.ts:265-268 | pushing an edge id appends it to that node's list, and every other node and field is unchanged |
| State.AddNodeRecords | src/core/Sim.ts:181-187 | adding a node stores Node(nextId, pos, []) under a fresh key, appends its id to the node order and advances the counter by one; agents, edges and the clock are unchanged |
| State.AddNodeSound | src/core/Sim.ts:180-188 | below the node ceiling, adding a node keeps the store invariant, and its id is used by no entity |
| State.Sample | src/core/Sim.ts:192 | the sampled id is one of the keys |
| State.SampleReachesEvery | src/core/Sim.ts:243 | every key can be drawn |
| State.AddAgentRecords | src/core/Sim.ts:190-199 | adding an agent stores, under a fresh key, an agent on a stored node's position with that node as both destinations and no edge; it appends the id to the agent order and advances the counter by one; nodes, edges, the clock and every other agent are unchanged |
| State.AddAgentSound | src/core/Sim.ts:189-199 | below the agent ceiling and with a node to stand on, adding an agent keeps the store invariant, and its id is used by no entity |
| State.MintPairNode | src/core/Sim.ts:265-268 | after minting, every node keeps its id and place, and its list holds exactly its old edges plus nextId if it is src and nextId + 1 if it is hop |
| State.MintPairAppends | src/core/Sim.ts:267-268 | after minting, every list keeps its old entries in order, with nextId pushed at the end of src's list and then nextId + 1 at the end of hop's |
| State.MintPairGrows | src/core/Sim.ts:249-269 | minting adds exactly the fresh mirrored edges nextId (src to hop) and nextId + 1 (hop to src), each used once, now; no other edge changes |
| State.MintPairSound | src/core/Sim.ts:249-269 | minting keeps the store invariant |
| State.ReinforceGrows | src/core/Sim.ts:271-274 | the chosen edge's uses rises by exactly one and its last use becomes now; no other edge changes and none is added |
| State.ReinforceSound | src/core/Sim.ts:271-274 | reinforcing keeps the store invariant |
| State.PutAgentGrows | src/core/Sim.ts:277-283 | writing back an agent record stores it under its key and changes no other agent, no edge, no node and no key |
| State.PutAgentSound | src/core/Sim.ts:277-283 | writing back a placed agent record under its own key keeps the store invariant |
| State.PairedAppend | src/core/Sim.ts:269 | two lists of mirrored pairs concatenate into one |
| State.PairedKept | src/core/Sim.ts:269 | mirrored pairs stay mirrored while every edge keeps its endpoints |
| State.PairedHasMirror | src/core/Sim.ts:249-269 | every minted id is a stored edge with a stored mirror |
| State.MirroredGrows | src/core/Sim.ts:249-269 | a store whose every edge has a mirror keeps that property when it only grows by mirrored pairs |
| State.GrowsTrans | src/core/Sim.ts:239-284 | two updates that keep every edge and mint fresh mirrored pairs compose into one, with the minted lists concatenated |
| State.ClockedSettled | src/core/Sim.ts:287 | advancing the clock after a tick, with a node stored, gives a state that meets the between-ticks invariant |
| Transitions.SpawnedSound | src/core/Sim.ts:176-209 | spawn keeps the store invariant, leaves at least one node, touches no edge and never lowers the counter |
| Transitions.SpawnedDiff | src/core/Sim.ts:176-208 | a node is added iff elapsed == 0 or (nodes.size < MAX_NODES and elapsed % NODE_SPAWN_RATE == 0), and an agent under the same rule with its own ceiling and rate; at most one of each; no edges and nothing removed; the stored keys grow by exactly the reported ids |
| Transitions.SpawnedKeeps | src/core/Sim.ts:176-200 | spawn leaves every node and agent already stored unchanged |
| Transitions.SpawnedRecords | src/core/Sim.ts:182-199 | the spawned node has an empty edge list; the spawned agent stands on a stored node's position with that node as both destinations and no edge |
| Transitions.SpawnRespectsCeilings | src/core/Sim.ts:180-189 | after spawn, at most MAX_NODES nodes and MAX_AGENTS agents are stored |
| Transitions.SettleSound | src/core/Sim.ts:248-278 | minting or reinforcing, then writing back the agent heading for the step's hop along the step's edge, keeps the store invariant |
| Transitions.SettleGrows | src/core/Sim.ts:248-278 | settling adds only the minted mirrored pair, keeps every other edge, and drops no edge's uses |
| Transitions.SettleEffects | src/core/Sim.ts:248-278 | off the graph, edges nextId (src to hop) and nextId + 1 (hop to src) are minted and reported, used once, now; along edge e nothing is minted, and e's uses rises by one and its last use becomes now; the agent record is stored; no other edge changes |
| Transitions.ArriveSound | src/core/Sim.ts:240-280 | an arrival retargets to a stored node (a sample when the final destination was reached) and settles on the router's step from the current node, with the agent's current destination and edge set to the step's pair; the invariant is kept |
| Transitions.ArriveMovable | src/core/Sim.ts:277-283 | after an arrival, the agent's new destination and edge are stored, so it can move |
| Transitions.MoveSound | src/core/Sim.ts:283 | moving sets only the agent's position, to one Advance towards its current destination at its speed; nodes, edges and every other agent are unchanged, and the invariant is kept |
| Transitions.AgentStepSound | src/core/Sim.ts:239-284 | one agent's part of the tick keeps the invariant and grows the edges only by mirrored pairs |
| Transitions.SweepSound | src/core/Sim.ts:239-284 | the pass over all agents keeps the invariant, grows the edges only by fresh mirrored pairs, and lowers no edge's uses |
| Transitions.SweepStep | src/core/Sim.ts:239-284 | the pass over the agents is the first agent's step followed by the pass over the rest, with the minted lists concatenated |
| Transitions.TickSettled | src/core/Sim.ts:235-289 | a tick keeps the between-ticks invariant, increments elapsed by exactly one, and reports spawn's diff with this tick's minted edges |
| Transitions.TickEdges | src/core/Sim.ts:235-289 | after a tick, the reported edges are fresh ids in mirrored pairs and are the only new edges; every old edge is kept with uses that never drop; a store whose every edge has a mirror keeps that property |
| Transitions.FirstSpawn | src/core/Sim.ts:176-209 | the first spawn adds node 0 at the given position and agent 1 standing on it |
| Transitions.FirstMint | src/core/Sim.ts:249-278 | an off-graph step from node 0 to itself mints self-loops 2 and 3 at node 0 |
| Transitions.FirstArrival | src/core/Sim.ts:240-280 | agent 1's first arrival routes from node 0 to node 0 and mints self-loops 2 and 3 |
| Transitions.FirstStep | src/core/Sim.ts:239-284 | agent 1's first step mints the self-loops and leaves the agent where it stands, on no edge |
| Transitions.FirstSweep | src/core/Sim.ts:239-284 | the first pass over the agents reports edges 2 and 3 |
| Transitions.FirstTick | src/core/Sim.ts:235-289 | the first tick from the empty store reports agent 1, node 0 and edges 2 and 3, and leaves the self-loops at node 0 |
| Engine.Sim.constructor | src/core/Sim.ts:63-71 | a new engine has empty stores, both counters at zero, and meets the invariant |
| Engine.Sim.GetAgent | src/core/Sim.ts:77-84 | returns the stored agent iff the id is a key, and fails with NoAgent otherwise |
| Engine.Sim.GetNode | src/core/Sim.ts:86-93 | returns the stored node iff the id is a key, and fails with NoNode otherwise |
| Engine.Sim.GetEdge | src/core/Sim.ts:95-102 | returns the stored edge iff the id is a key, and fails with NoEdge otherwise |
| Engine.Sim.NextId | src/core/Sim.ts:104-108 | returns the counter's value and advances it by exactly one |
| Engine.Sim.ScaledDistance | src/core/Sim.ts:116-141 | fails with NoNode for a missing endpoint, src first; otherwise its loop computes ScaledDist |
| Engine.Sim.NextStep | src/core/Sim.ts:211-233 | fails with NoNode for a missing endpoint, from first; otherwise its loop computes Route; it changes nothing |
| Engine.Sim.PutNode | src/core/Sim.ts:181-187 | stores AddNode of the old state, under the id it returns |
| Engine.Sim.PutSpawnedAgent | src/core/Sim.ts:190-199 | stores AddAgent of the old state, under the id it returns |
| Engine.Sim.Spawn | src/core/Sim.ts:176-209 | the new state and the diff are Spawned of the old state |
| Engine.Sim.MintEdges | src/core/Sim.ts:249-268 | the new state is MintPair of the old, with the two ids returned |
| Engine.Sim.UseEdge | src/core/Sim.ts:271-274 | the new state is Reinforce of the old |
| Engine.Sim.TakeStep | src/core/Sim.ts:248-278 | the new state and the minted ids are Settle of the old state |
| Engine.Sim.Reroute | src/core/Sim.ts:240-280 | the new state and the minted ids are Arrive of the old state |
| Engine.Sim.UpdateAgent | src/core/Sim.ts:239-284 | the new state and the minted ids are AgentStep of the old state |
| Engine.Sim.AdvanceClock | src/core/Sim.ts:287 | elapsed rises by one and nothing else changes |
| Engine.Sim.UpdateAll | src/core/Sim.ts:239-284 | its loop over the agents ends in Sweep of the old state, with the minted ids in order |
| Engine.Sim.Tick | src/core/Sim.ts:235-289 | the new state and the returned diff are Ticked of the old state, and the invariant holds again |

## Left out

- Floating point: `Math.sqrt` in `getDistance` (Sim.ts lines 110-114) and `Math.log` in `getScaledSpeed` are the functions of an abstract `Metric`. The model uses exact reals and only the laws in `Geometry.Lawful`. `Geometry.Homogeneous` is assumed only by the convergence lemmas.
- Randomness: `Math.random` (line 185) becomes a position parameter in the unit square. Each `_.sample` (lines 192 and 243) becomes a natural-number draw, reduced modulo the number of keys and taken from the keys in insertion order.
- `Map.size` and `Map.forEach` order: the class keeps the key sequences `nodeOrder` and `agentOrder` beside the maps. `State.OrderCounts` ties them to the map sizes.
- Ids: the engine renders the counter with `toString`. Distinct numbers give distinct strings, so ids are the counter's natural numbers.
- Router.RouteChoice: its facts about an edge step are necessary, not sufficient. Because of line 227 another candidate can meet them as well (edge 5 in `Router.StaleBestExample`). Which candidate wins is fixed only by `Router.Route` itself, which `Engine.Sim.NextStep`'s loop is proved to compute.
- Engine.Sim.ScaledDistance, Engine.Sim.NextStep: both require the router's graph to be well formed (`Router.Wf`), a consequence of the store invariant (`State.SoundGraph`). So `getEdge` and `getNode` throwing inside their loops, which no reachable state can cause, is not modelled.
- Engine.Sim.Reroute, Engine.Sim.UpdateAgent, Engine.Sim.UpdateAll, Engine.Sim.Tick: these require the store invariant, or the part of it they read. The lookups inside `tick` that throw on a missing key, which no reachable state triggers, are not modelled as error paths.
- The `nextStep[0] != null` test of `tick` (line 247) is always true, because `getNextStep` always returns a node id. The model has no branch for it.
- `console.log` calls, the unused `delta` argument of `tick`, `setSettings` and the `settings` field: these are logging and configuration that the engine never reads.
- `getDistance` itself is the metric's `distance` and is not modelled further.
- The user interface (`src/App.tsx`, `src/components/`), the HTTP server (`src/server.ts`) and the colour and settings records (`src/core/Color.ts`, `src/core/Settings.ts`) are not part of this model.
