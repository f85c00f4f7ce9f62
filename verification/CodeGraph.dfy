/** The undirected code graph and distances in it. */
module CodeGraph {
  import opened Wrappers

  type Node = nat
  type EdgeId = nat

  datatype EdgeKind =
    | Contains | Defines | Calls | Instantiates | Imports | NextModule | AlignsWith | OtherKind

  datatype Edge = Edge(id: EdgeId, source: Node, target: Option<Node>, kind: EdgeKind)

  predicate Usable(e: Edge) {
    e.target.Some? && !e.kind.AlignsWith? && !e.kind.OtherKind?
  }

  /** Edge e, read in either direction, leads from a to b. */
  predicate Joins(e: Edge, a: Node, b: Node, id: EdgeId) {
    Usable(e) && e.id == id
    && ((e.source == a && e.target.value == b) || (e.source == b && e.target.value == a))
  }

  predicate Links(edges: seq<Edge>, a: Node, b: Node, id: EdgeId) {
    exists i :: 0 <= i < |edges| && Joins(edges[i], a, b, id)
  }

  ghost predicate Adjacent(edges: seq<Edge>, a: Node, b: Node) {
    exists id: EdgeId :: Links(edges, a, b, id)
  }

  /** All end points of usable edges. */
  function Nodes(edges: seq<Edge>): set<Node> {
    if edges == [] then {}
    else
      var e := edges[0];
      Nodes(edges[1..]) + (if Usable(e) then {e.source, e.target.value} else {})
  }

  lemma {:induction false} NodesHaveEnds(edges: seq<Edge>, a: Node, b: Node, id: EdgeId)
    requires Links(edges, a, b, id)
    ensures a in Nodes(edges) && b in Nodes(edges)
  {
    if !Joins(edges[0], a, b, id) {
      var i :| 0 <= i < |edges| && Joins(edges[i], a, b, id);
      assert edges[1..][i - 1] == edges[i];
      NodesHaveEnds(edges[1..], a, b, id);
    }
  }

  /** The nodes at most d edges away from a seed. */
  ghost function Level(edges: seq<Edge>, seeds: set<Node>, d: nat): set<Node> {
    if d == 0 then seeds
    else
      Level(edges, seeds, d - 1)
      + (set n | n in Nodes(edges) && exists a :: a in Level(edges, seeds, d - 1) && Adjacent(edges, a, n))
  }

  /** n is d edges away from the nearest seed. */
  ghost predicate Distance(edges: seq<Edge>, seeds: set<Node>, n: Node, d: nat) {
    n in Level(edges, seeds, d) && (d > 0 ==> n !in Level(edges, seeds, d - 1))
  }

  lemma LevelNext(edges: seq<Edge>, seeds: set<Node>, d: nat, a: Node, b: Node)
    requires a in Level(edges, seeds, d) && Adjacent(edges, a, b)
    ensures b in Level(edges, seeds, d + 1)
  {
    var id: EdgeId :| Links(edges, a, b, id);
    NodesHaveEnds(edges, a, b, id);
  }

  lemma {:induction false} LevelsGrow(edges: seq<Edge>, seeds: set<Node>, c: nat, d: nat)
    requires c <= d
    ensures Level(edges, seeds, c) <= Level(edges, seeds, d)
  {
    if c < d {
      LevelsGrow(edges, seeds, c, d - 1);
    }
  }

  /** Once a level adds nothing, no later one does. */
  lemma {:induction false} LevelsStop(edges: seq<Edge>, seeds: set<Node>, c: nat, d: nat)
    requires c <= d && Level(edges, seeds, c + 1) == Level(edges, seeds, c)
    ensures Level(edges, seeds, d) == Level(edges, seeds, c)
  {
    if c < d {
      LevelsStop(edges, seeds, c, d - 1);
      forall n | n in Level(edges, seeds, d) ensures n in Level(edges, seeds, c) {
        if a :| a in Level(edges, seeds, d - 1) && Adjacent(edges, a, n) {
          LevelNext(edges, seeds, c, a, n);
        }
      }
      LevelsGrow(edges, seeds, c, d);
    }
  }

  /** A distance is unique. */
  lemma DistanceUnique(edges: seq<Edge>, seeds: set<Node>, n: Node, c: nat, d: nat)
    requires Distance(edges, seeds, n, c) && Distance(edges, seeds, n, d)
    ensures c == d
  {
    if c < d {
      LevelsGrow(edges, seeds, c, d - 1);
    } else if d < c {
      LevelsGrow(edges, seeds, d, c - 1);
    }
  }

  /** `path` is the list of edge ids of a walk from a to b. */
  ghost predicate Walk(edges: seq<Edge>, a: Node, b: Node, path: seq<EdgeId>)
    decreases |path|
  {
    if path == [] then a == b
    else
      var before, last := path[..|path| - 1], path[|path| - 1];
      exists mid: Node :: Walk(edges, a, mid, before) && Links(edges, mid, b, last)
  }

  ghost predicate WalkFrom(edges: seq<Edge>, seeds: set<Node>, b: Node, path: seq<EdgeId>) {
    exists a :: a in seeds && Walk(edges, a, b, path)
  }

  lemma ExtendWalk(edges: seq<Edge>, seeds: set<Node>, b: Node, path: seq<EdgeId>, c: Node, id: EdgeId)
    requires WalkFrom(edges, seeds, b, path) && Links(edges, b, c, id)
    ensures WalkFrom(edges, seeds, c, path + [id])
  {
    var a :| a in seeds && Walk(edges, a, b, path);
    assert (path + [id])[..|path|] == path;
    assert Walk(edges, a, c, path + [id]);
  }

  /** Levels are walks: a node is within d edges exactly when some walk of at most d edges
      leads to it from a seed. */
  lemma {:induction false} LevelIsWalk(edges: seq<Edge>, seeds: set<Node>, n: Node, d: nat)
    ensures n in Level(edges, seeds, d) <==> exists path :: |path| <= d && WalkFrom(edges, seeds, n, path)
  {
    if n in Level(edges, seeds, d) {
      WalkOfLevel(edges, seeds, n, d);
    }
    if path: seq<EdgeId> :| |path| <= d && WalkFrom(edges, seeds, n, path) {
      LevelOfWalk(edges, seeds, n, path);
      LevelsGrow(edges, seeds, |path|, d);
    }
  }

  lemma {:induction false} WalkOfLevel(edges: seq<Edge>, seeds: set<Node>, n: Node, d: nat)
    requires n in Level(edges, seeds, d)
    ensures exists path :: |path| <= d && WalkFrom(edges, seeds, n, path)
    decreases d
  {
    if d == 0 {
      assert Walk(edges, n, n, []);
      assert WalkFrom(edges, seeds, n, []);
    } else if n in Level(edges, seeds, d - 1) {
      WalkOfLevel(edges, seeds, n, d - 1);
    } else {
      var a :| a in Level(edges, seeds, d - 1) && Adjacent(edges, a, n);
      WalkOfLevel(edges, seeds, a, d - 1);
      var path :| |path| <= d - 1 && WalkFrom(edges, seeds, a, path);
      var id: EdgeId :| Links(edges, a, n, id);
      ExtendWalk(edges, seeds, a, path, n, id);
    }
  }

  lemma {:induction false} LevelOfWalk(edges: seq<Edge>, seeds: set<Node>, n: Node, path: seq<EdgeId>)
    requires WalkFrom(edges, seeds, n, path)
    ensures n in Level(edges, seeds, |path|)
    decreases |path|
  {
    if path != [] {
      var before, last := path[..|path| - 1], path[|path| - 1];
      var a :| a in seeds && Walk(edges, a, n, path);
      var mid: Node :| Walk(edges, a, mid, before) && Links(edges, mid, n, last);
      assert WalkFrom(edges, seeds, mid, before);
      LevelOfWalk(edges, seeds, mid, before);
      LevelNext(edges, seeds, |before|, mid, n);
    }
  }
}
