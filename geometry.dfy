/** Speeds and motion. The engine's two real-valued primitives, Euclidean distance
    (Math.sqrt) and the natural logarithm (Math.log), are taken as parameters whose
    laws are stated by Lawful; everything built on them is exact real arithmetic. */
module Geometry {
  import opened SimTypes

  const BASE_AGENT_SPEED: real := 0.002
  const USE_SPEED_SCALE: real := 0.002
  const OVERLAP_THRESHOLD: real := 0.001

  /** distance stands for getDistance, log for Math.log. */
  datatype Metric = Metric(distance: (Point, Point) -> real, log: real -> real)

  /** What the engine relies on: distances are non-negative and zero from a point to
      itself; log(1) = 0 and log is strictly increasing on [1, oo). */
  ghost predicate Lawful(m: Metric) {
    && (forall p, q :: m.distance(p, q) >= 0.0)
    && (forall p :: m.distance(p, p) == 0.0)
    && m.log(1.0) == 0.0
    && (forall a, b :: 1.0 <= a < b ==> m.log(a) < m.log(b))
  }

  /** A further law of Euclidean distance, used only for convergence: moving the
      fraction s of the way to q leaves (1 - s) of the distance. */
  ghost predicate Homogeneous(m: Metric) {
    forall p, q, s :: 0.0 <= s <= 1.0 ==> m.distance(Lerp(p, q, s), q) == (1.0 - s) * m.distance(p, q)
  }

  function Lerp(p: Point, q: Point, s: real): Point {
    Point(p.x + (q.x - p.x) * s, p.y + (q.y - p.y) * s)
  }

  /** getScaledSpeed: the speed on an edge used n times; never below the base speed. */
  function ScaledSpeed(m: Metric, n: nat): (r: real)
    requires Lawful(m)
    ensures r >= BASE_AGENT_SPEED
  {
    assert n > 0 ==> m.log(1.0) < m.log((n + 1) as real);
    BASE_AGENT_SPEED + m.log((n + 1) as real) * USE_SPEED_SCALE
  }

  /** More uses make an edge strictly faster. */
  lemma FasterWithUse(m: Metric, n1: nat, n2: nat)
    requires Lawful(m) && n1 < n2
    ensures ScaledSpeed(m, n1) < ScaledSpeed(m, n2)
  {
    assert m.log((n1 + 1) as real) < m.log((n2 + 1) as real);
  }

  lemma DivAntitone(d: real, s1: real, s2: real)
    requires d > 0.0 && 0.0 < s1 < s2
    ensures d / s2 < d / s1
  {
    var q1, q2 := d / s1, d / s2;
    assert q1 * s1 == d && q2 * s2 == d;
    if q2 >= q1 {
      assert q2 * s2 >= q1 * s2;
      assert q1 * s2 > q1 * s1;
    }
  }

  /** Speed reinforcement: of two edges of the same positive length, the one used
      more often has the strictly smaller scaled distance, and any edge is at least
      as fast as travelling off-graph. */
  lemma ReinforcementShortens(m: Metric, d: real, n1: nat, n2: nat)
    requires Lawful(m) && d > 0.0 && n1 < n2
    ensures d / ScaledSpeed(m, n2) < d / ScaledSpeed(m, n1) <= d / BASE_AGENT_SPEED
  {
    FasterWithUse(m, n1, n2);
    DivAntitone(d, ScaledSpeed(m, n1), ScaledSpeed(m, n2));
    if ScaledSpeed(m, n1) > BASE_AGENT_SPEED {
      DivAntitone(d, BASE_AGENT_SPEED, ScaledSpeed(m, n1));
    }
  }

  /** getNextPosition's test: the step covers the remaining distance. A zero
      distance counts as covered, as speed / 0 is Infinity in JavaScript. */
  predicate Covers(dist: real, speed: real) {
    dist == 0.0 || speed / dist >= 1.0
  }

  /** getNextPosition's arithmetic: snap to the destination when the step covers
      the remaining distance, otherwise move the fraction speed / dist of the way. */
  function Advance(m: Metric, curr: Point, dest: Point, speed: real): (r: Point)
    requires Lawful(m) && speed > 0.0
    ensures Covers(m.distance(curr, dest), speed) ==> r == dest
    ensures !Covers(m.distance(curr, dest), speed) ==>
      var scale := speed / m.distance(curr, dest);
      0.0 < scale < 1.0 && r == Lerp(curr, dest, scale)
  {
    var dist := m.distance(curr, dest);
    var dx := dest.x - curr.x;
    var dy := dest.y - curr.y;
    if dist == 0.0 || speed / dist >= 1.0 then
      Point(curr.x + dx, curr.y + dy)
    else
      var scale := speed / dist;
      Point(curr.x + dx * scale, curr.y + dy * scale)
  }

  lemma LerpCoordinate(a: real, b: real, s: real)
    requires 0.0 <= a <= 1.0 && 0.0 <= b <= 1.0 && 0.0 <= s <= 1.0
    ensures 0.0 <= a + (b - a) * s <= 1.0
  {
    if a <= b {
      ScaledPart(b - a, s);
      assert a + (b - a) * s <= a + (b - a) == b;
    } else {
      ScaledPart(a - b, s);
      assert (b - a) * s == -((a - b) * s);
      assert b == a - (a - b) <= a - (a - b) * s;
    }
  }

  lemma ScaledPart(c: real, s: real)
    requires c >= 0.0 && 0.0 <= s <= 1.0
    ensures 0.0 <= c * s <= c
  {
    assert c - c * s == c * (1.0 - s);
  }

  /** Motion never leaves the unit square: it only interpolates towards a point in it. */
  lemma AdvanceStaysInSquare(m: Metric, curr: Point, dest: Point, speed: real)
    requires Lawful(m) && speed > 0.0
    ensures InUnitSquare(curr) && InUnitSquare(dest) ==> InUnitSquare(Advance(m, curr, dest, speed))
  {
    var dist := m.distance(curr, dest);
    if InUnitSquare(curr) && InUnitSquare(dest) && !Covers(dist, speed) {
      var s := speed / dist;
      LerpCoordinate(curr.x, dest.x, s);
      LerpCoordinate(curr.y, dest.y, s);
    }
  }

  /** One step of motion closes the gap by exactly the speed, or closes it entirely. */
  lemma AdvanceProgress(m: Metric, curr: Point, dest: Point, speed: real)
    requires Lawful(m) && Homogeneous(m) && speed > 0.0
    ensures var d := m.distance(curr, dest);
      m.distance(Advance(m, curr, dest, speed), dest) == if Covers(d, speed) then 0.0 else d - speed
  {
    var d := m.distance(curr, dest);
    if !Covers(d, speed) {
      var s := speed / d;
      assert s * d == speed;
      assert m.distance(Lerp(curr, dest, s), dest) == (1.0 - s) * d;
    }
  }

  /** The position after successive ticks towards a fixed destination, one speed per tick. */
  function Travel(m: Metric, p: Point, dest: Point, speeds: seq<real>): Point
    requires Lawful(m) && forall i :: 0 <= i < |speeds| ==> speeds[i] > 0.0
    decreases |speeds|
  {
    if speeds == [] then p else Travel(m, Advance(m, p, dest, speeds[0]), dest, speeds[1..])
  }

  /** Convergence: moving at least v per tick towards a fixed destination, an agent is
      on it (so within OVERLAP_THRESHOLD) after any number of ticks k with k * v >= d. */
  lemma {:induction false} TravelArrives(m: Metric, p: Point, dest: Point, speeds: seq<real>, v: real)
    requires Lawful(m) && Homogeneous(m) && v > 0.0
    requires forall i :: 0 <= i < |speeds| ==> speeds[i] >= v
    requires |speeds| as real * v >= m.distance(p, dest)
    ensures m.distance(Travel(m, p, dest, speeds), dest) == 0.0 < OVERLAP_THRESHOLD
    decreases |speeds|
  {
    if speeds != [] {
      var next := Advance(m, p, dest, speeds[0]);
      AdvanceProgress(m, p, dest, speeds[0]);
      assert m.distance(next, dest) <= (|speeds| - 1) as real * v;
      TravelArrives(m, next, dest, speeds[1..], v);
    }
  }
}
