/** The router's cost model and choice, as functions of the graph: getScaledDistance
    and getNextStep of src/core/Sim.ts, and what their results mean. */
module Router {
  import opened SimTypes
  import opened Geometry

  /** The part of the engine's state the router reads. */
  datatype Graph = Graph(m: Metric, nodes: map<Id, Node>, edges: map<Id, Edge>)

  /** The router's answer: the next hop and the edge that leads there, if any. */
  datatype Step = Step(hop: Id, edge: Option<Id>)

  /** Every edge a node lists is stored and leads to a stored node. */
  ghost predicate Wf(g: Graph) {
    && Lawful(g.m)
    && (forall n, e :: n in g.nodes && e in g.nodes[n].edges ==> e in g.edges && g.edges[e].dst in g.nodes)
  }

  /** The index of the first edge in ids[i..] that leads to dst (the loop with a
      break in getScaledDistance). */
  function FirstEdgeTo(edges: map<Id, Edge>, ids: seq<Id>, dst: Id, i: nat): (r: Option<nat>)
    requires i <= |ids| && forall e :: e in ids ==> e in edges
    ensures r.Some? ==> i <= r.value < |ids| && edges[ids[r.value]].dst == dst
    ensures r.Some? ==> forall j :: i <= j < r.value ==> edges[ids[j]].dst != dst
    ensures r.None? ==> forall j :: i <= j < |ids| ==> edges[ids[j]].dst != dst
    decreases |ids| - i
  {
    if i == |ids| then None
    else if edges[ids[i]].dst == dst then Some(i)
    else FirstEdgeTo(edges, ids, dst, i + 1)
  }

  /** getScaledDistance: the distance between two nodes divided by the speed of the
      first edge between them, or by the base speed when there is none. */
  function ScaledDist(g: Graph, src: Id, dst: Id): (r: real)
    requires Wf(g) && src in g.nodes && dst in g.nodes
    ensures r >= 0.0
    ensures src == dst ==> r == 0.0
  {
    var ids := g.nodes[src].edges;
    var distance := g.m.distance(g.nodes[src].position, g.nodes[dst].position);
    match FirstEdgeTo(g.edges, ids, dst, 0)
    case Some(k) => distance / ScaledSpeed(g.m, g.edges[ids[k]].uses)
    case None => distance / BASE_AGENT_SPEED
  }

  /** The cost of the hop along candidate edge c. */
  function HopCost(g: Graph, from: Id, c: Id): real
    requires Wf(g) && from in g.nodes && c in g.nodes[from].edges
  {
    ScaledDist(g, from, g.edges[c].dst)
  }

  /** The one-level lookahead total of candidate c: its hop, then straight to `to`. */
  function Lookahead(g: Graph, from: Id, to: Id, c: Id): real
    requires Wf(g) && from in g.nodes && to in g.nodes && c in g.nodes[from].edges
  {
    HopCost(g, from, c) + ScaledDist(g, g.edges[c].dst, to)
  }

  /** The loop of getNextStep from candidate i on, with the running best and choice.
      A candidate wins when its lookahead total is strictly below the running best,
      which then becomes that candidate's hop cost alone (Sim.ts line 227). */
  function RouteFrom(g: Graph, from: Id, to: Id, i: nat, best: real, choice: Step): Step
    requires Wf(g) && from in g.nodes && to in g.nodes && i <= |g.nodes[from].edges|
    decreases |g.nodes[from].edges| - i
  {
    var cands := g.nodes[from].edges;
    if i == |cands| then choice
    else
      var c := cands[i];
      if Lookahead(g, from, to, c) < best then
        RouteFrom(g, from, to, i + 1, HopCost(g, from, c), Step(g.edges[c].dst, Some(c)))
      else
        RouteFrom(g, from, to, i + 1, best, choice)
  }

  /** getNextStep: start from going straight to `to` off-graph, then scan the edges. */
  function Route(g: Graph, from: Id, to: Id): Step
    requires Wf(g) && from in g.nodes && to in g.nodes
  {
    RouteFrom(g, from, to, 0, ScaledDist(g, from, to), Step(to, None))
  }

  /** The lookahead total of every candidate, in the order getNextStep scans them. */
  ghost function Totals(g: Graph, from: Id, to: Id): (t: seq<real>)
    requires Wf(g) && from in g.nodes && to in g.nodes
    ensures |t| == |g.nodes[from].edges|
  {
    var cands := g.nodes[from].edges;
    seq(|cands|, j requires 0 <= j < |cands| => Lookahead(g, from, to, cands[j]))
  }

  /** The hop cost of every candidate. */
  ghost function Hops(g: Graph, from: Id, to: Id): (h: seq<real>)
    requires Wf(g) && from in g.nodes && to in g.nodes
    ensures |h| == |g.nodes[from].edges|
    ensures forall j :: 0 <= j < |h| ==> h[j] <= Totals(g, from, to)[j]
  {
    var cands := g.nodes[from].edges;
    seq(|cands|, j requires 0 <= j < |cands| => HopCost(g, from, cands[j]))
  }

  /** What the scan has established after candidates [0, i): either no candidate beat
      the baseline, or candidate k is the current choice, it beat the baseline, it is
      strictly better than every candidate before it, and every candidate after it
      up to i costs at least k's hop cost. */
  ghost predicate Chosen(g: Graph, from: Id, to: Id, i: nat, choice: Step, k: nat)
    requires Wf(g) && from in g.nodes && to in g.nodes && i <= |g.nodes[from].edges|
  {
    var cands := g.nodes[from].edges;
    var base := ScaledDist(g, from, to);
    var t := Totals(g, from, to);
    if choice.edge.None? then
      && choice.hop == to
      && forall j :: 0 <= j < i ==> t[j] >= base
    else
      && k < i
      && choice == Step(g.edges[cands[k]].dst, Some(cands[k]))
      && t[k] < base
      && (forall j :: 0 <= j < k ==> t[j] > t[k])
      && (forall j :: k < j < i ==> t[j] >= Hops(g, from, to)[k])
  }

  /** The running best that goes with a choice. */
  ghost function BestOf(g: Graph, from: Id, to: Id, choice: Step, k: nat): real
    requires Wf(g) && from in g.nodes && to in g.nodes
    requires choice.edge.Some? ==> k < |g.nodes[from].edges|
  {
    if choice.edge.None? then ScaledDist(g, from, to) else Hops(g, from, to)[k]
  }

  /** A candidate that beats the running best becomes the choice. */
  lemma ChosenImprove(g: Graph, from: Id, to: Id, i: nat, choice: Step, k: nat)
    requires Wf(g) && from in g.nodes && to in g.nodes && i < |g.nodes[from].edges|
    requires Chosen(g, from, to, i, choice, k)
    requires Lookahead(g, from, to, g.nodes[from].edges[i]) < BestOf(g, from, to, choice, k)
    ensures var c := g.nodes[from].edges[i];
      Chosen(g, from, to, i + 1, Step(g.edges[c].dst, Some(c)), i)
  {
    var t := Totals(g, from, to);
    assert t[i] == Lookahead(g, from, to, g.nodes[from].edges[i]);
    var base := ScaledDist(g, from, to);
    if choice.edge.Some? {
      assert BestOf(g, from, to, choice, k) == Hops(g, from, to)[k] <= t[k];
      assert t[i] < t[k] < base;
      assert forall j :: 0 <= j < i ==> t[j] > t[i];
    } else {
      assert t[i] < base;
      assert forall j :: 0 <= j < i ==> t[j] > t[i];
    }
  }

  /** A candidate that does not beat the running best leaves the choice as it is. */
  lemma ChosenKeep(g: Graph, from: Id, to: Id, i: nat, choice: Step, k: nat)
    requires Wf(g) && from in g.nodes && to in g.nodes && i < |g.nodes[from].edges|
    requires Chosen(g, from, to, i, choice, k)
    requires Lookahead(g, from, to, g.nodes[from].edges[i]) >= BestOf(g, from, to, choice, k)
    ensures Chosen(g, from, to, i + 1, choice, k)
  {
    var t := Totals(g, from, to);
    assert t[i] == Lookahead(g, from, to, g.nodes[from].edges[i]);
    if choice.edge.None? {
      assert forall j :: 0 <= j < i + 1 ==> t[j] >= ScaledDist(g, from, to);
    } else {
      var h := Hops(g, from, to)[k];
      assert t[i] >= h;
      assert forall j :: k < j < i + 1 ==> t[j] >= h;
    }
  }

  lemma {:induction false} RouteFromChosen(g: Graph, from: Id, to: Id, i: nat, choice: Step, k: nat)
    returns (k': nat)
    requires Wf(g) && from in g.nodes && to in g.nodes && i <= |g.nodes[from].edges|
    requires Chosen(g, from, to, i, choice, k)
    ensures Chosen(g, from, to, |g.nodes[from].edges|,
                   RouteFrom(g, from, to, i, BestOf(g, from, to, choice, k), choice), k')
    decreases |g.nodes[from].edges| - i
  {
    var cands := g.nodes[from].edges;
    if i == |cands| {
      k' := k;
    } else {
      var c := cands[i];
      if Lookahead(g, from, to, c) < BestOf(g, from, to, choice, k) {
        ChosenImprove(g, from, to, i, choice, k);
        assert Hops(g, from, to)[i] == HopCost(g, from, c);
        k' := RouteFromChosen(g, from, to, i + 1, Step(g.edges[c].dst, Some(c)), i);
      } else {
        ChosenKeep(g, from, to, i, choice, k);
        k' := RouteFromChosen(g, from, to, i + 1, choice, k);
      }
    }
  }

  /** getNextStep's result: either the off-graph step (to, none), taken exactly when
      no candidate's lookahead total beats the baseline, or the step along candidate
      k of `from`'s edges, whose total beats the baseline and every earlier
      candidate's, while no later candidate's total undercuts k's hop cost (ties keep
      the earlier choice). */
  lemma RouteChoice(g: Graph, from: Id, to: Id) returns (k: nat)
    requires Wf(g) && from in g.nodes && to in g.nodes
    ensures var r := Route(g, from, to);
      var cands := g.nodes[from].edges;
      var base := ScaledDist(g, from, to);
      && r.hop in g.nodes
      && (r.edge.None? <==> forall j :: 0 <= j < |cands| ==> Lookahead(g, from, to, cands[j]) >= base)
      && (r.edge.None? ==> r.hop == to)
      && (r.edge.Some? ==>
            && k < |cands| && r.edge.value == cands[k] && r.hop == g.edges[cands[k]].dst
            && Lookahead(g, from, to, cands[k]) < base
            && (forall j :: 0 <= j < k ==> Lookahead(g, from, to, cands[j]) > Lookahead(g, from, to, cands[k]))
            && (forall j :: k < j < |cands| ==> Lookahead(g, from, to, cands[j]) >= HopCost(g, from, cands[k])))
  {
    k := RouteFromChosen(g, from, to, 0, Step(to, None), 0);
    var cands := g.nodes[from].edges;
    assert forall j :: 0 <= j < |cands| ==> Totals(g, from, to)[j] == Lookahead(g, from, to, cands[j]);
    assert forall j :: 0 <= j < |cands| ==> Hops(g, from, to)[j] == HopCost(g, from, cands[j]);
  }

  /** getNextStep returns either (to, null) or (e.dst, e) for an edge e of `from`:
      its hop is always a stored node. */
  lemma RouteLands(g: Graph, from: Id, to: Id)
    requires Wf(g) && from in g.nodes && to in g.nodes
    ensures var s := Route(g, from, to);
      && s.hop in g.nodes
      && (s.edge.None? ==> s.hop == to)
      && (s.edge.Some? ==> s.edge.value in g.nodes[from].edges && s.edge.value in g.edges
                           && g.edges[s.edge.value].dst == s.hop)
  {
    var k := RouteChoice(g, from, to);
  }

  /** Routing from a node to itself never takes an edge: the baseline costs nothing. */
  lemma SelfRouteIsOffGraph(g: Graph, n: Id)
    requires Wf(g) && n in g.nodes
    ensures Route(g, n, n) == Step(n, None)
  {
    var k := RouteChoice(g, n, n);
    var cands := g.nodes[n].edges;
    forall j | 0 <= j < |cands|
      ensures Lookahead(g, n, n, cands[j]) >= ScaledDist(g, n, n)
    {
    }
  }

  /** An edge straight to the destination is never chosen: its lookahead total is
      the baseline itself, which it does not strictly beat. */
  lemma DirectEdgeNeverChosen(g: Graph, from: Id, to: Id)
    requires Wf(g) && from in g.nodes && to in g.nodes
    ensures var r := Route(g, from, to);
      r.edge.Some? ==> r.edge.value in g.edges && g.edges[r.edge.value].dst != to
  {
    var k := RouteChoice(g, from, to);
  }

  /** A metric for worked examples: Manhattan distance, and log x = x - 1. */
  function Taxicab(): (m: Metric)
    ensures Lawful(m)
  {
    Metric((p: Point, q: Point) => (if p.x < q.x then q.x - p.x else p.x - q.x) + (if p.y < q.y then q.y - p.y else p.y - q.y),
           (x: real) => x - 1.0)
  }

  /** Two candidates that each beat the baseline: node 0 at the origin, edges 4 and 5
      to nodes 2 and 3 on the way to node 1, each used once. */
  function TwoCandidates(): (g: Graph)
    ensures Wf(g)
  {
    Graph(Taxicab(),
          map[0 := Node(0, Point(0.0, 0.0), [4, 5]), 1 := Node(1, Point(1.0, 0.0), []),
              2 := Node(2, Point(0.5, 0.0), []), 3 := Node(3, Point(0.6, 0.0), [])],
          map[4 := Edge(4, 0, 2, 1, 0), 5 := Edge(5, 0, 3, 1, 0)])
  }

  /** Because the running best becomes the winner's hop cost rather than its total
      (Sim.ts line 227), a later candidate is measured against that smaller figure:
      here edge 5's total of 350 beats edge 4's total of 375, yet edge 4 is chosen,
      since 350 does not beat edge 4's hop cost of 125. */
  lemma StaleBestExample()
    ensures var g := TwoCandidates();
      && Lookahead(g, 0, 1, 4) == 375.0 && HopCost(g, 0, 4) == 125.0
      && Lookahead(g, 0, 1, 5) == 350.0
      && Route(g, 0, 1) == Step(2, Some(4))
  {
    var g := TwoCandidates();
    assert ScaledSpeed(g.m, 1) == 0.004;
    assert g.nodes[0].edges[1] == 5 && g.nodes[0].edges[0] == 4;
    assert FirstEdgeTo(g.edges, [4, 5], 1, 0) == None;
    assert FirstEdgeTo(g.edges, [4, 5], 2, 0) == Some(0);
    assert FirstEdgeTo(g.edges, [4, 5], 3, 0) == Some(1);
    assert ScaledDist(g, 0, 1) == 500.0;
    assert ScaledDist(g, 2, 1) == 250.0;
    assert ScaledDist(g, 3, 1) == 200.0;
    assert HopCost(g, 0, 5) == 150.0;
  }
}
