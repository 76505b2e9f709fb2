/**
  Positions on the floor and the proximity graph the clustering pass runs on.
  The handler compares `Math.hypot(dx, dy)` with a radius; for a radius r >= 0
  that is the same as comparing dx*dx + dy*dy with r*r, which is what is
  modelled here, on exact reals.
*/
module Proximity {

  datatype Point = Point(x: real, y: real)

  /** Radius under which a root could pull a player in (never used, see README). */
  const ProxRadius: real := 140.0
  /** Radius under which an already clustered member pulls a player in. */
  const ExitRadius: real := 160.0

  function SqDist(p: Point, q: Point): real
  {
    (p.x - q.x) * (p.x - q.x) + (p.y - q.y) * (p.y - q.y)
  }

  /** hypot(p - q) < radius. */
  predicate Within(p: Point, q: Point, radius: real)
  {
    SqDist(p, q) < radius * radius
  }

  /** The edge relation of the proximity graph: distance below EXIT_RADIUS. */
  predicate Near(p: Point, q: Point)
  {
    Within(p, q, ExitRadius)
  }

  lemma NearSymmetric(p: Point, q: Point)
    ensures Near(p, q) == Near(q, p)
  {
    assert (p.x - q.x) * (p.x - q.x) == (q.x - p.x) * (q.x - p.x);
    assert (p.y - q.y) * (p.y - q.y) == (q.y - p.y) * (q.y - p.y);
  }

  /** `path` is a walk in the proximity graph over the players at `pts`. */
  ghost predicate IsChain(pts: seq<Point>, path: seq<int>)
  {
    && |path| > 0
    && (forall k :: 0 <= k < |path| ==> 0 <= path[k] < |pts|)
    && (forall k :: 0 <= k < |path| - 1 ==> Near(pts[path[k]], pts[path[k + 1]]))
  }

  /** Players i and j are linked by a chain of players, each step closer than EXIT_RADIUS. */
  ghost predicate Connected(pts: seq<Point>, i: int, j: int)
  {
    exists path :: IsChain(pts, path) && path[0] == i && path[|path| - 1] == j
  }

  lemma ConnectedInRange(pts: seq<Point>, i: int, j: int)
    requires Connected(pts, i, j)
    ensures 0 <= i < |pts| && 0 <= j < |pts|
  {
    var path :| IsChain(pts, path) && path[0] == i && path[|path| - 1] == j;
    assert path[|path| - 1] == j;
  }

  lemma ConnectedRefl(pts: seq<Point>, i: int)
    requires 0 <= i < |pts|
    ensures Connected(pts, i, i)
  {
    assert IsChain(pts, [i]);
  }

  /** A connection extends by one more step of the graph. */
  lemma ConnectedExtend(pts: seq<Point>, i: int, j: int, t: int)
    requires Connected(pts, i, j)
    requires 0 <= t < |pts| && 0 <= j < |pts| && Near(pts[j], pts[t])
    ensures Connected(pts, i, t)
  {
    var path :| IsChain(pts, path) && path[0] == i && path[|path| - 1] == j;
    var longer := path + [t];
    assert forall k :: 0 <= k < |path| ==> longer[k] == path[k];
    assert IsChain(pts, longer);
  }

  lemma {:induction false} ConnectedSymmetric(pts: seq<Point>, i: int, j: int)
    requires Connected(pts, i, j)
    ensures Connected(pts, j, i)
  {
    var path :| IsChain(pts, path) && path[0] == i && path[|path| - 1] == j;
    var n := |path|;
    var back := seq(n, k requires 0 <= k < n => path[n - 1 - k]);
    forall k | 0 <= k < n - 1
      ensures Near(pts[back[k]], pts[back[k + 1]])
    {
      NearSymmetric(pts[path[n - 2 - k]], pts[path[n - 1 - k]]);
    }
    assert IsChain(pts, back);
  }

  lemma {:induction false} ConnectedTransitive(pts: seq<Point>, i: int, j: int, t: int)
    requires Connected(pts, i, j) && Connected(pts, j, t)
    ensures Connected(pts, i, t)
  {
    var p1 :| IsChain(pts, p1) && p1[0] == i && p1[|p1| - 1] == j;
    var p2 :| IsChain(pts, p2) && p2[0] == j && p2[|p2| - 1] == t;
    var walk := p1 + p2[1..];
    assert forall k :: 0 <= k < |p1| ==> walk[k] == p1[k];
    assert forall k :: |p1| <= k < |walk| ==> walk[k] == p2[k - |p1| + 1];
    assert IsChain(pts, walk);
  }

  /**
    A set of players that contains i and that no edge leaves contains every
    player connected to i: a component is the least closed set around a player.
  */
  lemma {:induction false} ClosedSetContainsComponent(pts: seq<Point>, s: set<int>, i: int, j: int)
    requires i in s
    requires forall a, b :: a in s && 0 <= a < |pts| && 0 <= b < |pts| && Near(pts[a], pts[b]) ==> b in s
    requires Connected(pts, i, j)
    ensures j in s
  {
    var path :| IsChain(pts, path) && path[0] == i && path[|path| - 1] == j;
    var k := 0;
    while k < |path| - 1
      invariant 0 <= k < |path|
      invariant path[k] in s
    {
      k := k + 1;
    }
  }
}
