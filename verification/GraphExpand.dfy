/** Bounded breadth-first expansion of the recalled entities along the code graph. */
module GraphExpansion {
  import opened Wrappers
  import opened CodeGraph

  datatype Hit = Hit(node: Node, depth: nat, path: seq<EdgeId>)

  // ----------------------------------------------------------------- adjacency

  type Neighbour = (Node, EdgeId)

  function Get(adjacency: map<Node, seq<Neighbour>>, a: Node): seq<Neighbour> {
    if a in adjacency then adjacency[a] else []
  }

  method BuildAdjacency(edges: seq<Edge>) returns (adjacency: map<Node, seq<Neighbour>>)
    ensures forall a: Node, b: Node, id: EdgeId :: (b, id) in Get(adjacency, a) <==> Links(edges, a, b, id)
  {
    adjacency := map[];
    for i := 0 to |edges|
      invariant forall a: Node, b: Node, id: EdgeId ::
                  (b, id) in Get(adjacency, a) <==> exists k :: 0 <= k < i && Joins(edges[k], a, b, id)
    {
      var e := edges[i];
      if Usable(e) {
        var s, t := e.source, e.target.value;
        ghost var before := adjacency;
        adjacency := adjacency[s := Get(adjacency, s) + [(t, e.id)]];
        adjacency := adjacency[t := Get(adjacency, t) + [(s, e.id)]];
        forall a: Node, b: Node, id: EdgeId
          ensures (b, id) in Get(adjacency, a) <==> (b, id) in Get(before, a) || Joins(e, a, b, id)
        {
        }
      }
    }
  }

  predicate Before(x: Neighbour, y: Neighbour) {
    x.0 < y.0 || (x.0 == y.0 && x.1 < y.1)
  }

  function Insert(x: Neighbour, sorted: seq<Neighbour>): (r: seq<Neighbour>)
    ensures forall y :: y in r <==> y == x || y in sorted
  {
    if sorted == [] || !Before(sorted[0], x) then [x] + sorted
    else
      assert forall y :: y in sorted <==> y == sorted[0] || y in sorted[1..];
      [sorted[0]] + Insert(x, sorted[1..])
  }

  function Sorted(s: seq<Neighbour>): (r: seq<Neighbour>)
    ensures forall y :: y in r <==> y in s
  {
    if s == [] then []
    else
      assert forall y :: y in s <==> y == s[0] || y in s[1..];
      Insert(s[0], Sorted(s[1..]))
  }

  // ------------------------------------------------------------------ one visit

  /** The new hits of one expanded node, for the neighbours not reached as soon before. */
  method Visit(neighbours: seq<Neighbour>, depth: nat, path: seq<EdgeId>, best: map<Node, nat>)
    returns (after: map<Node, nat>, found: seq<Hit>)
    requires forall n :: n in best ==> best[n] <= depth + 1
    ensures forall n :: n in best ==> n in after && after[n] == best[n]
    ensures forall n :: n in after && n !in best ==> after[n] == depth + 1 <= 98 && exists i :: 0 <= i < |found| && found[i].node == n
    ensures depth + 1 <= 98 ==> forall t: Node, id: EdgeId :: (t, id) in neighbours ==> t in after
    ensures forall i :: 0 <= i < |found| ==> NewHit(found[i], neighbours, depth, path) && found[i].node in after && found[i].node !in best
    ensures forall i, j :: 0 <= i < j < |found| ==> found[i].node != found[j].node
  {
    after, found := best, [];
    for k := 0 to |neighbours|
      invariant forall n :: n in best ==> n in after && after[n] == best[n]
      invariant forall n :: n in after && n !in best ==>
                  after[n] == depth + 1 <= 98 && exists i :: 0 <= i < |found| && found[i].node == n
      invariant depth + 1 <= 98 ==> forall m :: 0 <= m < k ==> neighbours[m].0 in after
      invariant forall i :: 0 <= i < |found| ==>
                  NewHit(found[i], neighbours, depth, path) && found[i].node in after && found[i].node !in best
      invariant forall i, j :: 0 <= i < j < |found| ==> found[i].node != found[j].node
    {
      var (target, id) := neighbours[k];
      var reached := if target in after then after[target] else 99;
      if reached > depth + 1 {
        var hit := Hit(target, depth + 1, path + [id]);
        assert NewHit(hit, neighbours, depth, path) by {
          assert neighbours[k] == (target, id);
        }
        ghost var earlier := found;
        after, found := after[target := depth + 1], found + [hit];
        assert found[|earlier|].node == target;
        assert forall i :: 0 <= i < |earlier| ==> found[i] == earlier[i];
      }
    }
  }

  function Last(hit: Hit): EdgeId
    requires |hit.path| > 0
  {
    hit.path[|hit.path| - 1]
  }

  predicate NewHit(hit: Hit, neighbours: seq<Neighbour>, depth: nat, path: seq<EdgeId>) {
    |hit.path| > 0 && hit == Hit(hit.node, depth + 1, path + [Last(hit)]) && (hit.node, Last(hit)) in neighbours
  }

  // ------------------------------------------------------------------ invariant

  /** A hit names a node at its distance, with a walk of that many edges from a seed. */
  ghost predicate Witnessed(edges: seq<Edge>, seeds: set<Node>, hit: Hit) {
    Distance(edges, seeds, hit.node, hit.depth) && |hit.path| == hit.depth
    && WalkFrom(edges, seeds, hit.node, hit.path)
  }

  /** The depth the search can reach: 99 stands for a node not reached. */
  function Cap(maxHops: int): nat {
    if maxHops < 0 then 0 else if maxHops > 98 then 98 else maxHops
  }

  ghost predicate BestExact(edges: seq<Edge>, seeds: set<Node>, d: nat, best: map<Node, nat>) {
    && (forall n :: n in best ==> best[n] <= d + 1 && Distance(edges, seeds, n, best[n]))
    && (forall n :: n in Level(edges, seeds, d) ==> n in best)
  }

  /** The first q entries are at depth d, the rest one deeper, all within the cap. */
  ghost predicate QueueSplit(edges: seq<Edge>, seeds: set<Node>, cap: nat, d: nat, q: nat,
                             best: map<Node, nat>, queue: seq<Hit>) {
    && d <= cap && q <= |queue|
    && (forall i :: 0 <= i < |queue| ==>
          && queue[i].depth == (if i < q then d else d + 1) && queue[i].depth <= cap
          && Witnessed(edges, seeds, queue[i])
          && queue[i].node in best)
  }

  ghost predicate Queued(queue: seq<Hit>, from: nat, to: nat, n: Node)
    requires from <= to <= |queue|
  {
    exists i :: from <= i < to && queue[i].node == n
  }

  /** What is left to do is in the queue. */
  ghost predicate Frontier(edges: seq<Edge>, cap: nat, d: nat, q: nat, best: map<Node, nat>, queue: seq<Hit>)
    requires q <= |queue|
  {
    && (forall n :: n in best && best[n] == d + 1 ==> Queued(queue, q, |queue|, n))
    && (d < cap ==> forall n, m :: n in best && best[n] == d && Adjacent(edges, n, m) ==>
          m in best || Queued(queue, 0, q, n))
  }

  ghost predicate ResultExact(edges: seq<Edge>, seeds: set<Node>, best: map<Node, nat>, result: seq<Hit>) {
    && (forall i :: 0 <= i < |result| ==>
          result[i].depth > 0 && Witnessed(edges, seeds, result[i]) && result[i].node in best)
    && (forall n :: n in best && best[n] > 0 ==> exists i :: 0 <= i < |result| && result[i].node == n)
    && (forall i, j :: 0 <= i < j < |result| ==> result[i].node != result[j].node)
  }

  lemma LevelBefore(edges: seq<Edge>, seeds: set<Node>, d: nat, a: Node, b: Node)
    requires d > 0 && Adjacent(edges, a, b)
    ensures b !in Level(edges, seeds, d) ==> a !in Level(edges, seeds, d - 1)
  {
    if a in Level(edges, seeds, d - 1) {
      LevelNext(edges, seeds, d - 1, a, b);
    }
  }

  /** When depth d is used up, everything at depth d + 1 is known. */
  lemma NextLevelKnown(edges: seq<Edge>, seeds: set<Node>, cap: nat, d: nat, best: map<Node, nat>, queue: seq<Hit>)
    requires BestExact(edges, seeds, d, best) && Frontier(edges, cap, d, 0, best, queue) && d < cap
    ensures forall n :: n in Level(edges, seeds, d + 1) ==> n in best
  {
    forall n | n in Level(edges, seeds, d + 1) ensures n in best {
      if n !in Level(edges, seeds, d) {
        var a :| a in Level(edges, seeds, d) && Adjacent(edges, a, n);
        if d > 0 {
          LevelBefore(edges, seeds, d, a, n);
        }
        DistanceUnique(edges, seeds, a, best[a], d);
      }
    }
  }

  lemma FoundDistance(edges: seq<Edge>, seeds: set<Node>, d: nat, best: map<Node, nat>, a: Node, b: Node, id: EdgeId)
    requires BestExact(edges, seeds, d, best) && a in Level(edges, seeds, d) && b !in best && Links(edges, a, b, id)
    ensures CodeGraph.Distance(edges, seeds, b, d + 1)
  {
    LevelNext(edges, seeds, d, a, b);
  }

  /** The nodes a visit adds are one edge further away. */
  lemma FoundWitnessed(edges: seq<Edge>, seeds: set<Node>, d: nat, best: map<Node, nat>, current: Hit, hit: Hit,
                       id: EdgeId)
    requires BestExact(edges, seeds, d, best) && Witnessed(edges, seeds, current) && current.depth == d
    requires hit == Hit(hit.node, d + 1, current.path + [id]) && hit.node !in best
    requires Links(edges, current.node, hit.node, id)
    ensures Witnessed(edges, seeds, hit)
  {
    FoundDistance(edges, seeds, d, best, current.node, hit.node, id);
    ExtendWalk(edges, seeds, current.node, current.path, hit.node, id);
  }

  // ------------------------------------------------------------------- the search

  /** Sorted seeds: ids in ascending order. */
  method SortedSeeds(seeds: set<Node>) returns (list: seq<Node>)
    ensures forall n :: n in list <==> n in seeds
    ensures forall i, j :: 0 <= i < j < |list| ==> list[i] < list[j]
  {
    list := [];
    var left := seeds;
    while left != {}
      invariant left <= seeds
      invariant forall n :: n in list <==> n in seeds && n !in left
      invariant forall i, j :: 0 <= i < j < |list| ==> list[i] < list[j]
      invariant forall n, i :: n in left && 0 <= i < |list| ==> list[i] < n
      decreases |left|
    {
      var least := Least(left);
      list, left := list + [least], left - {least};
    }
  }

  method Least(s: set<Node>) returns (least: Node)
    requires s != {}
    ensures least in s && forall n :: n in s ==> least <= n
  {
    least :| least in s;
    var left := s - {least};
    while left != {}
      invariant left <= s && least in s
      invariant forall n :: n in s && n !in left ==> least <= n
      decreases |left|
    {
      var n :| n in left;
      left := left - {n};
      if n < least {
        least := n;
      }
    }
  }

  method Start(ghost edges: seq<Edge>, seeds: set<Node>, ghost cap: nat) returns (queue: seq<Hit>, best: map<Node, nat>)
    ensures BestExact(edges, seeds, 0, best) && best.Keys == seeds
    ensures QueueSplit(edges, seeds, cap, 0, |queue|, best, queue)
    ensures Frontier(edges, cap, 0, |queue|, best, queue)
    ensures ResultExact(edges, seeds, best, [])
  {
    var list := SortedSeeds(seeds);
    queue := seq(|list|, i requires 0 <= i < |list| => Hit(list[i], 0, []));
    best := map n | n in seeds :: 0;
    forall i | 0 <= i < |queue| ensures Witnessed(edges, seeds, queue[i]) {
      assert list[i] in list;
      assert Walk(edges, list[i], list[i], []);
    }
    forall n | n in best ensures CodeGraph.Distance(edges, seeds, n, 0) && Queued(queue, 0, |queue|, n) {
      assert n in list;
      var i :| 0 <= i < |list| && list[i] == n;
      assert queue[i].node == n;
    }
  }

  /** What a visit leaves, put together. */
  lemma Visited(edges: seq<Edge>, seeds: set<Node>, cap: nat, d: nat, q: nat, best: map<Node, nat>,
                after: map<Node, nat>, queue: seq<Hit>, found: seq<Hit>, result: seq<Hit>)
    requires 0 < q && QueueSplit(edges, seeds, cap, d, q, best, queue)
    requires BestExact(edges, seeds, d, best) && Frontier(edges, cap, d, q, best, queue)
    requires ResultExact(edges, seeds, best, result)
    requires forall n :: n in best ==> n in after && after[n] == best[n]
    requires forall n :: n in after && n !in best ==>
               after[n] == d + 1 <= cap && exists i :: 0 <= i < |found| && found[i].node == n
    requires d < cap ==> forall m :: Adjacent(edges, queue[0].node, m) ==> m in after
    requires forall i :: 0 <= i < |found| ==>
               && found[i].node in after && found[i].node !in best && |found[i].path| > 0
               && found[i] == Hit(found[i].node, d + 1, queue[0].path + [Last(found[i])])
               && Links(edges, queue[0].node, found[i].node, Last(found[i]))
    requires forall i, j :: 0 <= i < j < |found| ==> found[i].node != found[j].node
    ensures BestExact(edges, seeds, d, after)
    ensures QueueSplit(edges, seeds, cap, d, q - 1, after, queue[1..] + found)
    ensures Frontier(edges, cap, d, q - 1, after, queue[1..] + found)
    ensures ResultExact(edges, seeds, after, result + found)
    ensures if found == [] then after == best else best.Keys < after.Keys
    ensures after.Keys <= best.Keys + Nodes(edges)
  {
    forall i | 0 <= i < |found| ensures Witnessed(edges, seeds, found[i]) {
      FoundWitnessed(edges, seeds, d, best, queue[0], found[i], Last(found[i]));
    }
    VisitedBest(edges, seeds, d, best, after, found);
    VisitedFrontier(edges, cap, d, q, best, after, queue, found);
    VisitedResult(edges, seeds, best, after, result, found);
    VisitedKeys(edges, queue[0].node, best, after, found);
    VisitedQueue(edges, seeds, cap, d, q, best, after, queue, found);
  }

  lemma VisitedQueue(edges: seq<Edge>, seeds: set<Node>, cap: nat, d: nat, q: nat, best: map<Node, nat>,
                     after: map<Node, nat>, queue: seq<Hit>, found: seq<Hit>)
    requires 0 < q && QueueSplit(edges, seeds, cap, d, q, best, queue)
    requires best.Keys <= after.Keys
    requires forall i :: 0 <= i < |found| ==>
               found[i].depth == d + 1 <= cap && Witnessed(edges, seeds, found[i]) && found[i].node in after
    ensures QueueSplit(edges, seeds, cap, d, q - 1, after, queue[1..] + found)
  {
    var next := queue[1..] + found;
    forall i | 0 <= i < |next|
      ensures next[i].depth == (if i < q - 1 then d else d + 1) && next[i].depth <= cap
      ensures Witnessed(edges, seeds, next[i]) && next[i].node in after
    {
      if i < |queue| - 1 {
        assert next[i] == queue[i + 1];
      } else {
        assert next[i] == found[i - (|queue| - 1)];
      }
    }
  }

  /** Visiting the neighbours of one queue entry at depth d. */
  method Expand(ghost edges: seq<Edge>, ghost seeds: set<Node>, ghost cap: nat, maxHops: int,
                adjacency: map<Node, seq<Neighbour>>, ghost d: nat, ghost q: nat,
                best: map<Node, nat>, queue: seq<Hit>, result: seq<Hit>)
    returns (after: map<Node, nat>, next: seq<Hit>, more: seq<Hit>)
    requires cap == Cap(maxHops)
    requires forall a: Node, b: Node, id: EdgeId :: (b, id) in Get(adjacency, a) <==> Links(edges, a, b, id)
    requires 0 < q && QueueSplit(edges, seeds, cap, d, q, best, queue)
    requires BestExact(edges, seeds, d, best) && Frontier(edges, cap, d, q, best, queue)
    requires ResultExact(edges, seeds, best, result)
    ensures BestExact(edges, seeds, d, after)
    ensures QueueSplit(edges, seeds, cap, d, q - 1, after, next)
    ensures Frontier(edges, cap, d, q - 1, after, next)
    ensures ResultExact(edges, seeds, after, more)
    ensures if after == best then |next| < |queue| else best.Keys < after.Keys
    ensures after.Keys <= best.Keys + Nodes(edges)
  {
    var current := queue[0];
    if current.depth >= maxHops {
      after, next, more := best, queue[1..], result;
      Popped(edges, cap, d, q, best, queue);
    } else {
      var neighbours := Sorted(Get(adjacency, current.node));
      var found;
      after, found := Visit(neighbours, current.depth, current.path, best);
      next, more := queue[1..] + found, result + found;
      forall i | 0 <= i < |found|
        ensures |found[i].path| > 0 && found[i] == Hit(found[i].node, d + 1, current.path + [Last(found[i])])
        ensures Links(edges, current.node, found[i].node, Last(found[i]))
      {
        assert NewHit(found[i], neighbours, current.depth, current.path);
      }
      Visited(edges, seeds, cap, d, q, best, after, queue, found, result);
    }
  }

  lemma Popped(edges: seq<Edge>, cap: nat, d: nat, q: nat, best: map<Node, nat>, queue: seq<Hit>)
    requires 0 < q <= |queue| && Frontier(edges, cap, d, q, best, queue) && d >= cap
    ensures Frontier(edges, cap, d, q - 1, best, queue[1..])
  {
    forall n | n in best && best[n] == d + 1 ensures Queued(queue[1..], q - 1, |queue[1..]|, n) {
      var i :| q <= i < |queue| && queue[i].node == n;
      assert queue[1..][i - 1] == queue[i];
    }
  }

  lemma VisitedBest(edges: seq<Edge>, seeds: set<Node>, d: nat, best: map<Node, nat>, after: map<Node, nat>, found: seq<Hit>)
    requires BestExact(edges, seeds, d, best)
    requires forall n :: n in best ==> n in after && after[n] == best[n]
    requires forall n :: n in after && n !in best ==> after[n] == d + 1 && exists i :: 0 <= i < |found| && found[i].node == n
    requires forall i :: 0 <= i < |found| ==> found[i].depth == d + 1 && Witnessed(edges, seeds, found[i])
    ensures BestExact(edges, seeds, d, after)
  {
  }

  lemma VisitedFrontier(edges: seq<Edge>, cap: nat, d: nat, q: nat, best: map<Node, nat>, after: map<Node, nat>,
                        queue: seq<Hit>, found: seq<Hit>)
    requires 0 < q <= |queue| && Frontier(edges, cap, d, q, best, queue)
    requires forall n :: n in best ==> n in after && after[n] == best[n]
    requires forall n :: n in after && n !in best ==> after[n] == d + 1 && exists i :: 0 <= i < |found| && found[i].node == n
    requires d < cap ==> forall m :: Adjacent(edges, queue[0].node, m) ==> m in after
    ensures Frontier(edges, cap, d, q - 1, after, queue[1..] + found)
  {
    var next := queue[1..] + found;
    forall n | n in after && after[n] == d + 1 ensures Queued(next, q - 1, |next|, n) {
      if n in best {
        var i :| q <= i < |queue| && queue[i].node == n;
        assert next[i - 1] == queue[i];
      } else {
        var i :| 0 <= i < |found| && found[i].node == n;
        assert next[|queue| - 1 + i] == found[i];
      }
    }
    if d < cap {
      forall n, m | n in after && after[n] == d && Adjacent(edges, n, m)
        ensures m in after || Queued(next, 0, q - 1, n)
      {
        if m !in after {
          assert n in best && Queued(queue, 0, q, n);
          var i :| 0 <= i < q && queue[i].node == n;
          assert next[i - 1] == queue[i];
        }
      }
    }
  }

  lemma VisitedResult(edges: seq<Edge>, seeds: set<Node>, best: map<Node, nat>, after: map<Node, nat>,
                      result: seq<Hit>, found: seq<Hit>)
    requires ResultExact(edges, seeds, best, result)
    requires forall n :: n in best ==> n in after && after[n] == best[n]
    requires forall n :: n in after && n !in best ==> exists i :: 0 <= i < |found| && found[i].node == n
    requires forall i :: 0 <= i < |found| ==>
               found[i].depth > 0 && Witnessed(edges, seeds, found[i]) && found[i].node in after && found[i].node !in best
    requires forall i, j :: 0 <= i < j < |found| ==> found[i].node != found[j].node
    ensures ResultExact(edges, seeds, after, result + found)
  {
    var all := result + found;
    forall n | n in after && after[n] > 0 ensures exists i :: 0 <= i < |all| && all[i].node == n {
      if n in best {
        var i :| 0 <= i < |result| && result[i].node == n;
        assert all[i].node == n;
      } else {
        var i :| 0 <= i < |found| && found[i].node == n;
        assert all[|result| + i].node == n;
      }
    }
  }

  lemma VisitedKeys(edges: seq<Edge>, current: Node, best: map<Node, nat>, after: map<Node, nat>, found: seq<Hit>)
    requires forall n :: n in best ==> n in after && after[n] == best[n]
    requires forall n :: n in after && n !in best ==> exists i :: 0 <= i < |found| && found[i].node == n
    requires forall i :: 0 <= i < |found| ==>
               found[i].node in after && found[i].node !in best && |found[i].path| > 0
               && Links(edges, current, found[i].node, Last(found[i]))
    ensures best.Keys <= after.Keys && (found == [] ==> after == best) && (found != [] ==> best.Keys < after.Keys)
    ensures after.Keys <= best.Keys + Nodes(edges)
  {
    forall n | n in after && n !in best ensures n in Nodes(edges) {
      var i :| 0 <= i < |found| && found[i].node == n;
      NodesHaveEnds(edges, current, n, Last(found[i]));
    }
    if found != [] {
      assert found[0].node in after.Keys - best.Keys;
    }
  }

  /** The hits are exactly the nodes from one to Cap(maxHops) edges away, each once, at its
      distance, with a walk of that many edges from a seed. The cap is what the code's
      placeholder distance 99 allows; below it, the bound is maxHops itself. */
  ghost predicate Complete(edges: seq<Edge>, seeds: set<Node>, maxHops: int, result: seq<Hit>) {
    && (forall i :: 0 <= i < |result| ==>
          1 <= result[i].depth <= Cap(maxHops) && Witnessed(edges, seeds, result[i]))
    && (forall n, d :: 1 <= d <= Cap(maxHops) && CodeGraph.Distance(edges, seeds, n, d) ==>
          exists i :: 0 <= i < |result| && result[i].node == n)
    && (forall i, j :: 0 <= i < j < |result| ==> result[i].node != result[j].node)
  }

  method GraphExpand(seeds: set<Node>, edges: seq<Edge>, maxHops: int) returns (result: seq<Hit>)
    ensures Complete(edges, seeds, maxHops, result)
  {
    var adjacency := BuildAdjacency(edges);
    ghost var cap := Cap(maxHops);
    var queue, best := Start(edges, seeds, cap);
    result := [];
    ghost var d: nat, q: nat := 0, |queue|;
    ghost var universe := seeds + Nodes(edges);
    while queue != []
      invariant QueueSplit(edges, seeds, cap, d, q, best, queue)
      invariant BestExact(edges, seeds, d, best) && Frontier(edges, cap, d, q, best, queue)
      invariant ResultExact(edges, seeds, best, result)
      invariant best.Keys <= universe
      decreases universe - best.Keys, |queue|
    {
      if q == 0 {
        NextDepth(edges, seeds, cap, d, best, queue);
        d, q := d + 1, |queue|;
      }
      ghost var before := best;
      best, queue, result := Expand(edges, seeds, cap, maxHops, adjacency, d, q, best, queue, result);
      q := q - 1;
      if best != before {
        Shrinks(universe, before.Keys, best.Keys);
      }
    }
    Finished(edges, seeds, cap, d, best, result);
  }

  lemma Shrinks(universe: set<Node>, before: set<Node>, after: set<Node>)
    requires before < after <= universe
    ensures universe - after < universe - before
  {
    var n :| n in after && n !in before;
    assert n in universe - before && n !in universe - after;
  }

  /** Every remaining entry is one deeper: that depth becomes the current one. */
  lemma NextDepth(edges: seq<Edge>, seeds: set<Node>, cap: nat, d: nat, best: map<Node, nat>, queue: seq<Hit>)
    requires queue != [] && QueueSplit(edges, seeds, cap, d, 0, best, queue)
    requires BestExact(edges, seeds, d, best) && Frontier(edges, cap, d, 0, best, queue)
    ensures QueueSplit(edges, seeds, cap, d + 1, |queue|, best, queue)
    ensures BestExact(edges, seeds, d + 1, best) && Frontier(edges, cap, d + 1, |queue|, best, queue)
  {
    assert queue[0].depth == d + 1 <= cap;
    NextLevelKnown(edges, seeds, cap, d, best, queue);
  }

  /** With nothing queued, no level below the cap holds a node that was not reached. */
  lemma Finished(edges: seq<Edge>, seeds: set<Node>, cap: nat, d: nat, best: map<Node, nat>, result: seq<Hit>)
    requires d <= cap && BestExact(edges, seeds, d, best) && Frontier(edges, cap, d, 0, best, [])
    requires ResultExact(edges, seeds, best, result)
    ensures forall n, c :: 1 <= c <= cap && CodeGraph.Distance(edges, seeds, n, c) ==>
              exists i :: 0 <= i < |result| && result[i].node == n
    ensures forall i :: 0 <= i < |result| ==> result[i].depth <= cap
  {
    if d < cap {
      NextLevelKnown(edges, seeds, cap, d, best, []);
      forall n | n in Level(edges, seeds, d + 1) ensures n in Level(edges, seeds, d) {
        assert best[n] != d + 1;
        LevelsGrow(edges, seeds, best[n], d);
      }
      LevelsGrow(edges, seeds, d, d + 1);
    }
    forall n, c | 1 <= c <= cap && CodeGraph.Distance(edges, seeds, n, c)
      ensures exists i :: 0 <= i < |result| && result[i].node == n
    {
      if c > d {
        LevelsStop(edges, seeds, d, c);
      } else {
        LevelsGrow(edges, seeds, c, d);
      }
      DistanceUnique(edges, seeds, n, best[n], c);
    }
    forall i | 0 <= i < |result| ensures result[i].depth <= cap {
      DistanceUnique(edges, seeds, result[i].node, best[result[i].node], result[i].depth);
    }
  }
}
