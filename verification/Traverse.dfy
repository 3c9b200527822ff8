/** Bounded, deterministic breadth-first traversal of the relationship graph. */
module Traverse {
  import opened Wrappers
  import opened Sorting

  datatype Direction = Incoming | Outgoing

  datatype Edge = Edge(id: string, kind: string, source: string, target: Option<string>, symbol: Option<string>)

  /** Where an edge leads in the given direction; an unresolved target leads nowhere. */
  function Neighbor(e: Edge, direction: Direction): Option<string>
  {
    if direction.Outgoing? then e.target else Some(e.source)
  }

  // ---- lookups -----------------------------------------------------------------------

  /** The order of a node's edges: by type, then target or symbol, then id. */
  predicate EdgeLe(a: Edge, b: Edge)
  {
    var ta := if a.target.Some? then a.target.value else if a.symbol.Some? then a.symbol.value else "";
    var tb := if b.target.Some? then b.target.value else if b.symbol.Some? then b.symbol.value else "";
    if a.kind != b.kind then StrLe(a.kind, b.kind)
    else if ta != tb then StrLe(ta, tb)
    else StrLe(a.id, b.id)
  }

  function Take<T>(s: seq<T>, n: nat): seq<T>
  {
    if n <= |s| then s[..n] else s
  }

  function OfType(rows: seq<Edge>, kind: string): seq<Edge>
  {
    if rows == [] then []
    else (if rows[0].kind == kind then [rows[0]] else []) + OfType(rows[1..], kind)
  }

  /** The rows of each type in turn, `limit` of each at most. */
  function ByType(rows: seq<Edge>, types: seq<string>, limit: nat): seq<Edge>
  {
    if types == [] then [] else Take(OfType(rows, types[0]), limit) + ByType(rows, types[1..], limit)
  }

  function AllByType(rows: seq<Edge>, types: seq<string>): seq<Edge>
  {
    if types == [] then [] else OfType(rows, types[0]) + AllByType(rows, types[1..])
  }

  /** What the store returns for a node: at most `limit` rows per query. */
  function Looked(rows: seq<Edge>, types: seq<string>, limit: nat): seq<Edge>
  {
    StableSort(EdgeLe, if types == [] then Take(rows, limit) else ByType(rows, types, limit))
  }

  /** All edges of the node of the given types, in order. */
  function Full(rows: seq<Edge>, types: seq<string>): seq<Edge>
  {
    StableSort(EdgeLe, if types == [] then rows else AllByType(rows, types))
  }

  lemma {:induction false} ShortByTypeIsComplete(rows: seq<Edge>, types: seq<string>, limit: nat)
    requires |ByType(rows, types, limit)| < limit
    ensures ByType(rows, types, limit) == AllByType(rows, types)
    decreases |types|
  {
    if types != [] {
      ShortByTypeIsComplete(rows, types[1..], limit);
    }
  }

  lemma SortKeepsLength(s: seq<Edge>)
    ensures |StableSort(EdgeLe, s)| == |s|
  {
    SameElements(StableSort(EdgeLe, s), s);
  }

  /** A lookup that returns fewer rows than its limit returned all of them. */
  lemma ShortLookupIsComplete(rows: seq<Edge>, types: seq<string>, limit: nat)
    requires |Looked(rows, types, limit)| < limit
    ensures Looked(rows, types, limit) == Full(rows, types)
  {
    if types == [] {
      SortKeepsLength(Take(rows, limit));
    } else {
      SortKeepsLength(ByType(rows, types, limit));
      ShortByTypeIsComplete(rows, types, limit);
    }
  }

  // ---- distances --------------------------------------------------------------------------

  /** A graph as the walk sees it: all edges of a node, and where each leads. */
  datatype Graph = Graph(edges: string -> seq<Edge>, next: Edge -> Option<string>)
  {
    /** The nodes one edge away from `n`. */
    function Neighbors(n: string): set<string>
    {
      set e | e in edges(n) && next(e).Some? :: next(e).value
    }

    function NeighborsOf(nodes: set<string>): set<string>
    {
      set n, m | n in nodes && m in Neighbors(n) :: m
    }

    /** The nodes at distance at most `k` from `start`. */
    function Within(start: string, k: nat): set<string>
    {
      if k == 0 then {start} else Within(start, k - 1) + NeighborsOf(Within(start, k - 1))
    }

    /** The nodes at distance exactly `k`. */
    function AtDistance(start: string, k: nat): set<string>
    {
      if k == 0 then {start} else Within(start, k) - Within(start, k - 1)
    }
  }

  /** The next level is what the current one leads to and was not met before. */
  lemma NextLevel(g: Graph, start: string, k: nat)
    ensures g.AtDistance(start, k + 1) == g.NeighborsOf(g.AtDistance(start, k)) - g.Within(start, k)
  {
  }

  lemma {:induction false} EmptyLevelsStay(g: Graph, start: string, j: nat, k: nat)
    requires j <= k && g.AtDistance(start, j) == {}
    ensures g.AtDistance(start, k) == {}
    decreases k - j
  {
    if j < k {
      EmptyLevelsStay(g, start, j, k - 1);
      NextLevel(g, start, k - 1);
      assert g.NeighborsOf({}) == {};
    }
  }

  // ---- the walk ------------------------------------------------------------------------------

  type Hop = (nat, Edge)

  /** `edges` labelled with the depth. */
  function At(depth: nat, edges: seq<Edge>): seq<Hop>
  {
    seq(|edges|, i requires 0 <= i < |edges| => (depth, edges[i]))
  }

  /** The hops of the nodes of one level, in order. */
  function HopsOf(g: Graph, depth: nat, nodes: seq<string>): seq<Hop>
  {
    if nodes == [] then [] else HopsOf(g, depth, nodes[..|nodes| - 1]) + At(depth, g.edges(nodes[|nodes| - 1]))
  }

  /** The hops of the levels, the first one at depth 1. */
  function HopsOfLevels(g: Graph, levels: seq<seq<string>>): seq<Hop>
  {
    if levels == [] then []
    else HopsOfLevels(g, levels[..|levels| - 1]) + HopsOf(g, |levels|, levels[|levels| - 1])
  }

  /** The levels list the nodes at distance 0, 1, ..., each node once. */
  ghost predicate AreLevels(g: Graph, start: string, levels: seq<seq<string>>)
  {
    forall d :: 0 <= d < |levels| ==> Distinct(levels[d]) && Elements(levels[d]) == g.AtDistance(start, d)
  }

  /** Every hop leaves a node at the distance before its depth. */
  ghost predicate IsHop(g: Graph, start: string, h: Hop, maxDepth: nat)
  {
    1 <= h.0 <= maxDepth && exists n :: n in g.AtDistance(start, h.0 - 1) && h.1 in g.edges(n)
  }

  ghost predicate Sound(g: Graph, start: string, out: seq<Hop>, maxDepth: nat)
  {
    && (forall h :: h in out ==> IsHop(g, start, h, maxDepth))
    && (forall i, j :: 0 <= i < j < |out| ==> out[i].0 <= out[j].0)
  }

  /** The nodes an edge list adds to those already met, in order. */
  ghost predicate Discovered(g: Graph, before: set<string>, seen: set<string>, visited: set<string>, found: seq<string>)
  {
    && visited == before + seen && Distinct(found) && Elements(found) == seen - before
  }

  lemma DiscoverOne(
    g: Graph, before: set<string>, seen: set<string>, visited: set<string>, found: seq<string>, m: string)
    requires Discovered(g, before, seen, visited, found)
    ensures m in visited ==> Discovered(g, before, seen + {m}, visited, found)
    ensures m !in visited ==> Discovered(g, before, seen + {m}, visited + {m}, found + [m])
  {
    if m !in visited {
      assert m !in Elements(found);
      assert Elements(found + [m]) == Elements(found) + {m};
    }
  }

  /** The nodes the first `i` edges lead to. */
  function LedTo(g: Graph, edges: seq<Edge>): set<string>
  {
    set e | e in edges && g.next(e).Some? :: g.next(e).value
  }

  lemma LedToOneMore(g: Graph, edges: seq<Edge>, e: Edge)
    ensures LedTo(g, edges + [e]) == LedTo(g, edges) + if g.next(e).Some? then {g.next(e).value} else {}
  {
  }

  lemma AtOneMore(depth: nat, edges: seq<Edge>, e: Edge)
    ensures At(depth, edges + [e]) == At(depth, edges) + [(depth, e)]
  {
  }

  /** Follows the edges of one node until `limit` hops are out. */
  method FollowEdges(
    g: Graph, depth: nat, edges: seq<Edge>, limit: nat, ghost before: set<string>, ghost seen: set<string>,
    out: seq<Hop>, visited: set<string>, next: seq<string>)
    returns (more: seq<Hop>, met: set<string>, found: seq<string>, full: bool)
    requires |out| < limit && Discovered(g, before, seen, visited, next)
    ensures full <==> |more| >= limit
    ensures |more| <= limit
    ensures !full ==> more == out + At(depth, edges) && Discovered(g, before, seen + LedTo(g, edges), met, found)
    ensures full ==> exists k :: 0 <= k <= |edges| && more == out + At(depth, edges[..k])
  {
    more, met, found, full := out, visited, next, false;
    assert LedTo(g, edges[..0]) == {};
    assert seen + LedTo(g, edges[..0]) == seen;
    for i := 0 to |edges|
      invariant |more| < limit && more == out + At(depth, edges[..i])
      invariant Discovered(g, before, seen + LedTo(g, edges[..i]), met, found)
    {
      var e := edges[i];
      assert edges[..i + 1] == edges[..i] + [e];
      AtOneMore(depth, edges[..i], e);
      LedToOneMore(g, edges[..i], e);
      assert out + At(depth, edges[..i]) + [(depth, e)] == out + At(depth, edges[..i + 1]);
      more := more + [(depth, e)];
      if |more| >= limit {
        full := true;
        return;
      }
      assert seen + LedTo(g, edges[..i + 1]) ==
        seen + LedTo(g, edges[..i]) + if g.next(e).Some? then {g.next(e).value} else {};
      if g.next(e).Some? {
        DiscoverOne(g, before, seen + LedTo(g, edges[..i]), met, found, g.next(e).value);
        if g.next(e).value !in met {
          met, found := met + {g.next(e).value}, found + [g.next(e).value];
        }
      }
    }
    assert edges[..|edges|] == edges;
  }

  /** A lookup of at most `limit` rows: complete when shorter, and never more than the edges. */
  ghost predicate Looks(g: Graph, lookup: string -> seq<Edge>, limit: nat)
  {
    && (forall n :: |lookup(n)| < limit ==> lookup(n) == g.edges(n))
    && (forall n, e :: e in lookup(n) ==> e in g.edges(n))
  }

  /** The hops appended to `before` all leave nodes of `nodes`, at this depth. */
  ghost predicate Appends(g: Graph, depth: nat, nodes: seq<string>, before: seq<Hop>, after: seq<Hop>)
  {
    && before <= after
    && forall i :: |before| <= i < |after| ==> after[i].0 == depth && LeavesOne(g, nodes, after[i].1)
  }

  ghost predicate LeavesOne(g: Graph, nodes: seq<string>, e: Edge)
  {
    exists n :: n in nodes && e in g.edges(n)
  }

  lemma NeighborsOneMore(g: Graph, nodes: seq<string>, i: nat)
    requires i < |nodes|
    ensures g.NeighborsOf(Elements(nodes[..i + 1]))
      == g.NeighborsOf(Elements(nodes[..i])) + LedTo(g, g.edges(nodes[i]))
  {
    assert nodes[..i + 1] == nodes[..i] + [nodes[i]];
    assert Elements(nodes[..i + 1]) == Elements(nodes[..i]) + {nodes[i]};
    assert LedTo(g, g.edges(nodes[i])) == g.Neighbors(nodes[i]);
  }

  lemma HopsOneMore(g: Graph, depth: nat, nodes: seq<string>, i: nat)
    requires i < |nodes|
    ensures HopsOf(g, depth, nodes[..i + 1]) == HopsOf(g, depth, nodes[..i]) + At(depth, g.edges(nodes[i]))
  {
    assert nodes[..i + 1][..i] == nodes[..i];
  }

  lemma AppendNode(
    g: Graph, depth: nat, nodes: seq<string>, before: seq<Hop>, after: seq<Hop>, n: string, edges: seq<Edge>)
    requires Appends(g, depth, nodes, before, after) && n in nodes && forall e :: e in edges ==> e in g.edges(n)
    ensures Appends(g, depth, nodes, before, after + At(depth, edges))
  {
  }

  /** The nodes of the level before `i` are expanded. */
  ghost predicate Expanding(
    g: Graph, depth: nat, frontier: seq<string>, i: nat, before: set<string>, out: seq<Hop>, more: seq<Hop>,
    met: set<string>, next: seq<string>)
    requires i <= |frontier|
  {
    && more == out + HopsOf(g, depth, frontier[..i])
    && Discovered(g, before, g.NeighborsOf(Elements(frontier[..i])), met, next)
    && Appends(g, depth, frontier, out, more)
  }

  lemma NothingExpanded(g: Graph, depth: nat, frontier: seq<string>, before: set<string>, out: seq<Hop>)
    ensures Expanding(g, depth, frontier, 0, before, out, out, before, [])
  {
  }

  lemma OneMoreExpanded(
    g: Graph, depth: nat, frontier: seq<string>, i: nat, before: set<string>, out: seq<Hop>, was: seq<Hop>,
    more: seq<Hop>, met: set<string>, next: seq<string>)
    requires i < |frontier| && Appends(g, depth, frontier, out, was) && was == out + HopsOf(g, depth, frontier[..i])
    requires more == was + At(depth, g.edges(frontier[i]))
    requires Discovered(g, before, g.NeighborsOf(Elements(frontier[..i])) + LedTo(g, g.edges(frontier[i])), met, next)
    ensures Expanding(g, depth, frontier, i + 1, before, out, more, met, next)
  {
    NeighborsOneMore(g, frontier, i);
    HopsOneMore(g, depth, frontier, i);
    AppendNode(g, depth, frontier, out, was, frontier[i], g.edges(frontier[i]));
  }

  /** The limit was reached at the `k`-th row of the `i`-th node of the level. */
  ghost predicate CutAt(
    g: Graph, lookup: string -> seq<Edge>, depth: nat, frontier: seq<string>, before: seq<Hop>, out: seq<Hop>,
    i: nat, k: nat)
  {
    && i < |frontier| && k <= |lookup(frontier[i])|
    && out == before + HopsOf(g, depth, frontier[..i]) + At(depth, lookup(frontier[i])[..k])
  }

  ghost predicate IsCut(
    g: Graph, lookup: string -> seq<Edge>, depth: nat, frontier: seq<string>, before: seq<Hop>, out: seq<Hop>)
  {
    exists i, k :: CutAt(g, lookup, depth, frontier, before, out, i, k)
  }

  /** The walk stopped in its last level: all levels before it are complete. */
  ghost predicate WalkedUntilFull(
    g: Graph, lookup: string -> seq<Edge>, start: string, levels: seq<seq<string>>, out: seq<Hop>)
  {
    && levels != [] && AreLevels(g, start, levels)
    && IsCut(g, lookup, |levels|, levels[|levels| - 1], HopsOfLevels(g, levels[..|levels| - 1]), out)
  }

  /** Expands every node of one level. */
  method ExpandLevel(
    g: Graph, lookup: string -> seq<Edge>, start: string, depth: nat, frontier: seq<string>, limit: nat, out: seq<Hop>,
    visited: set<string>) returns (more: seq<Hop>, met: set<string>, next: seq<string>, full: bool)
    requires Looks(g, lookup, limit) && depth > 0 && |out| < limit
    requires Elements(frontier) == g.AtDistance(start, depth - 1) && visited == g.Within(start, depth - 1)
    ensures |more| <= limit && (full <==> |more| >= limit) && Appends(g, depth, frontier, out, more)
    ensures !full ==> more == out + HopsOf(g, depth, frontier)
    ensures !full ==> met == g.Within(start, depth) && Distinct(next) && Elements(next) == g.AtDistance(start, depth)
    ensures full ==> IsCut(g, lookup, depth, frontier, out, more)
  {
    more, met, next, full := out, visited, [], false;
    ghost var before := visited;
    NothingExpanded(g, depth, frontier, before, out);
    for i := 0 to |frontier|
      invariant |more| < limit && Expanding(g, depth, frontier, i, before, out, more, met, next)
    {
      var edges := lookup(frontier[i]);
      ghost var seen, was := g.NeighborsOf(Elements(frontier[..i])), more;
      more, met, next, full := FollowEdges(g, depth, edges, limit, before, seen, more, met, next);
      if full {
        ghost var k :| 0 <= k <= |edges| && more == was + At(depth, edges[..k]);
        AppendNode(g, depth, frontier, out, was, frontier[i], edges[..k]);
        assert CutAt(g, lookup, depth, frontier, out, more, i, k);
        return;
      }
      OneMoreExpanded(g, depth, frontier, i, before, out, was, more, met, next);
    }
    assert frontier[..|frontier|] == frontier;
    LevelReached(g, start, depth);
  }

  lemma LevelReached(g: Graph, start: string, depth: nat)
    requires depth > 0
    ensures g.Within(start, depth) == g.Within(start, depth - 1) + g.NeighborsOf(g.AtDistance(start, depth - 1))
    ensures g.AtDistance(start, depth) == g.NeighborsOf(g.AtDistance(start, depth - 1)) - g.Within(start, depth - 1)
  {
    NextLevel(g, start, depth - 1);
    assert g.AtDistance(start, depth - 1) <= g.Within(start, depth - 1);
  }

  lemma StillSound(
    g: Graph, start: string, depth: nat, maxDepth: nat, frontier: seq<string>, out: seq<Hop>, more: seq<Hop>)
    requires Sound(g, start, out, maxDepth) && 0 < depth <= maxDepth && forall h :: h in out ==> h.0 < depth
    requires Elements(frontier) == g.AtDistance(start, depth - 1) && Appends(g, depth, frontier, out, more)
    ensures Sound(g, start, more, maxDepth) && forall h :: h in more ==> h.0 < depth + 1
  {
  }

  lemma OneMoreLevel(g: Graph, start: string, levels: seq<seq<string>>, frontier: seq<string>)
    requires AreLevels(g, start, levels)
    requires Distinct(frontier) && Elements(frontier) == g.AtDistance(start, |levels|)
    ensures AreLevels(g, start, levels + [frontier])
    ensures HopsOfLevels(g, levels + [frontier]) == HopsOfLevels(g, levels) + HopsOf(g, |levels| + 1, frontier)
  {
    assert (levels + [frontier])[..|levels|] == levels;
  }

  lemma {:induction false} InHops(g: Graph, depth: nat, nodes: seq<string>, n: string, e: Edge)
    requires n in nodes && e in g.edges(n)
    ensures (depth, e) in HopsOf(g, depth, nodes)
    decreases |nodes|
  {
    var last := nodes[|nodes| - 1];
    if n == last {
      var i :| 0 <= i < |g.edges(n)| && g.edges(n)[i] == e;
      assert At(depth, g.edges(n))[i] == (depth, e);
    } else {
      assert n in nodes[..|nodes| - 1];
      InHops(g, depth, nodes[..|nodes| - 1], n, e);
    }
  }

  lemma {:induction false} InLevelHops(g: Graph, levels: seq<seq<string>>, d: nat, n: string, e: Edge)
    requires d < |levels| && n in levels[d] && e in g.edges(n)
    ensures (d + 1, e) in HopsOfLevels(g, levels)
    decreases |levels|
  {
    if d < |levels| - 1 {
      InLevelHops(g, levels[..|levels| - 1], d, n, e);
    } else {
      InHops(g, |levels|, levels[d], n, e);
    }
  }

  /** The levels walked are all of those below `maxDepth` that hold any node. */
  ghost predicate WalkedAll(g: Graph, start: string, levels: seq<seq<string>>, maxDepth: nat)
  {
    && AreLevels(g, start, levels) && |levels| <= maxDepth
    && (|levels| < maxDepth ==> g.AtDistance(start, |levels|) == {})
  }

  /** Walked levels hold every edge leaving a node at a distance below
      `maxDepth`, labelled with that distance plus one. */
  lemma WalkedIsComplete(
    g: Graph, start: string, levels: seq<seq<string>>, maxDepth: nat, d: nat, n: string, e: Edge)
    requires WalkedAll(g, start, levels, maxDepth)
    requires d < maxDepth && n in g.AtDistance(start, d) && e in g.edges(n)
    ensures (d + 1, e) in HopsOfLevels(g, levels)
  {
    if d >= |levels| {
      EmptyLevelsStay(g, start, |levels|, d);
    }
    assert n in Elements(levels[d]);
    InLevelHops(g, levels, d, n, e);
  }

  lemma LastLevelCut(
    g: Graph, lookup: string -> seq<Edge>, start: string, levels: seq<seq<string>>, frontier: seq<string>,
    out: seq<Hop>, more: seq<Hop>)
    requires AreLevels(g, start, levels + [frontier]) && out == HopsOfLevels(g, levels)
    requires IsCut(g, lookup, |levels| + 1, frontier, out, more)
    ensures WalkedUntilFull(g, lookup, start, levels + [frontier], more)
  {
    assert (levels + [frontier])[..|levels|] == levels;
  }

  /** The levels before `depth` were walked, and `frontier` is the next one. */
  ghost predicate Walking(
    g: Graph, start: string, depth: nat, levels: seq<seq<string>>, out: seq<Hop>, visited: set<string>,
    frontier: seq<string>)
    requires depth > 0
  {
    && Distinct(frontier) && Elements(frontier) == g.AtDistance(start, depth - 1)
    && visited == g.Within(start, depth - 1)
    && |levels| == depth - 1 && AreLevels(g, start, levels) && out == HopsOfLevels(g, levels)
  }

  lemma OneMoreWalked(
    g: Graph, start: string, depth: nat, levels: seq<seq<string>>, out: seq<Hop>, visited: set<string>,
    frontier: seq<string>, more: seq<Hop>, met: set<string>, next: seq<string>)
    requires depth > 0 && Walking(g, start, depth, levels, out, visited, frontier)
    requires more == out + HopsOf(g, depth, frontier) && met == g.Within(start, depth)
    requires Distinct(next) && Elements(next) == g.AtDistance(start, depth)
    ensures Walking(g, start, depth + 1, levels + [frontier], more, met, next)
  {
    OneMoreLevel(g, start, levels, frontier);
  }

  lemma WalkEnds(
    g: Graph, start: string, depth: nat, levels: seq<seq<string>>, out: seq<Hop>, visited: set<string>,
    frontier: seq<string>, maxDepth: nat)
    requires 0 < depth <= maxDepth + 1 && Walking(g, start, depth, levels, out, visited, frontier)
    requires frontier == [] || depth == maxDepth + 1
    ensures WalkedAll(g, start, levels, maxDepth)
  {
    assert frontier == [] ==> Elements(frontier) == {};
  }

  /** The levels before `depth` were walked; the walk stopped in the last of them if the limit is reached. */
  ghost predicate Progress(
    g: Graph, lookup: string -> seq<Edge>, start: string, maxDepth: nat, limit: nat, depth: nat,
    levels: seq<seq<string>>, out: seq<Hop>, visited: set<string>, frontier: seq<string>)
  {
    && 0 < depth <= maxDepth + 1 && |out| <= limit
    && Sound(g, start, out, maxDepth) && (forall h :: h in out ==> h.0 < depth)
    && (|out| < limit ==> Walking(g, start, depth, levels, out, visited, frontier))
    && (|out| == limit > 0 ==> WalkedUntilFull(g, lookup, start, levels, out))
  }

  /** What expanding a level comes to. */
  ghost predicate Expanded(
    g: Graph, lookup: string -> seq<Edge>, start: string, limit: nat, depth: nat, out: seq<Hop>,
    frontier: seq<string>, more: seq<Hop>, met: set<string>, next: seq<string>)
    requires depth > 0
  {
    && |more| <= limit && Appends(g, depth, frontier, out, more)
    && (|more| < limit ==>
          && more == out + HopsOf(g, depth, frontier) && met == g.Within(start, depth)
          && Distinct(next) && Elements(next) == g.AtDistance(start, depth))
    && (|more| >= limit ==> IsCut(g, lookup, depth, frontier, out, more))
  }

  lemma Progresses(
    g: Graph, lookup: string -> seq<Edge>, start: string, maxDepth: nat, limit: nat, depth: nat,
    levels: seq<seq<string>>, out: seq<Hop>, visited: set<string>, frontier: seq<string>, more: seq<Hop>,
    met: set<string>, next: seq<string>)
    requires Progress(g, lookup, start, maxDepth, limit, depth, levels, out, visited, frontier)
    requires |out| < limit && depth <= maxDepth
    requires Expanded(g, lookup, start, limit, depth, out, frontier, more, met, next)
    ensures Progress(g, lookup, start, maxDepth, limit, depth + 1, levels + [frontier], more, met, next)
  {
    StillSound(g, start, depth, maxDepth, frontier, out, more);
    if |more| < limit {
      OneMoreWalked(g, start, depth, levels, out, visited, frontier, more, met, next);
    } else {
      OneMoreLevel(g, start, levels, frontier);
      LastLevelCut(g, lookup, start, levels, frontier, out, more);
    }
  }

  /** Walks level by level from `start`, up to `maxDepth` hops and `limit` edges. */
  method Walk(g: Graph, lookup: string -> seq<Edge>, start: string, maxDepth: nat, limit: nat)
    returns (out: seq<Hop>, ghost levels: seq<seq<string>>)
    requires Looks(g, lookup, limit)
    ensures |out| <= limit && Sound(g, start, out, maxDepth)
    ensures |out| < limit ==> WalkedAll(g, start, levels, maxDepth) && out == HopsOfLevels(g, levels)
    ensures |out| == limit > 0 ==> WalkedUntilFull(g, lookup, start, levels, out)
  {
    out, levels := [], [];
    var visited, frontier := {start}, [start];
    var depth := 1;
    assert Elements(frontier) == {start};
    while frontier != [] && depth <= maxDepth && |out| < limit
      invariant Progress(g, lookup, start, maxDepth, limit, depth, levels, out, visited, frontier)
      decreases maxDepth + 1 - depth
    {
      var more, met, next, full := ExpandLevel(g, lookup, start, depth, frontier, limit, out, visited);
      Progresses(g, lookup, start, maxDepth, limit, depth, levels, out, visited, frontier, more, met, next);
      levels := levels + [frontier];
      out, visited, frontier, depth := more, met, next, depth + 1;
    }
    if |out| < limit {
      WalkEnds(g, start, depth, levels, out, visited, frontier, maxDepth);
    }
  }

  // ---- the walk over edges ---------------------------------------------------------------------

  /** What a traversal is asked: whose edges to follow, which end of them, and where from. */
  datatype Query = Query(rows: string -> seq<Edge>, direction: Direction, types: seq<string>, start: string)
  {
    /** `e` is an edge of the node `n`, of a type asked for. */
    ghost predicate Leaves(n: string, e: Edge)
    {
      e in rows(n) && (types == [] || e.kind in types)
    }

    /** Outgoing edges lead to their target, if it is known, incoming ones to their source. */
    ghost predicate Leads(e: Edge, n: string)
    {
      match direction
      case Outgoing => e.target == Some(n)
      case Incoming => e.source == n
    }

    /** A trail of `k` edges leads from the start to `n`. */
    ghost predicate Reaches(n: string, k: nat)
      decreases k
    {
      if k == 0 then n == start else exists m, e :: Reaches(m, k - 1) && Leaves(m, e) && Leads(e, n)
    }

    /** The shortest trail to `n` has `k` edges. */
    ghost predicate Nearest(n: string, k: nat)
    {
      Reaches(n, k) && forall j :: 0 <= j < k ==> !Reaches(n, j)
    }

    /** The edge leaves a node at the distance before the depth. */
    ghost predicate Answers(h: Hop, maxDepth: nat)
    {
      1 <= h.0 <= maxDepth && exists n :: Nearest(n, h.0 - 1) && Leaves(n, h.1)
    }

    /** The hop continues one of `out`: it leaves the node that hop leads to. */
    ghost predicate Continues(out: seq<Hop>, h: Hop)
    {
      exists e, n :: (h.0 - 1, e) in out && Leads(e, n) && Leaves(n, h.1)
    }
  }

  lemma {:induction false} OfTypeHas(rows: seq<Edge>, kind: string, e: Edge)
    ensures e in OfType(rows, kind) <==> e in rows && e.kind == kind
  {
    if rows != [] {
      OfTypeHas(rows[1..], kind, e);
    }
  }

  lemma {:induction false} AllByTypeHas(rows: seq<Edge>, types: seq<string>, e: Edge)
    ensures e in AllByType(rows, types) <==> e in rows && e.kind in types
    decreases |types|
  {
    if types != [] {
      OfTypeHas(rows, types[0], e);
      AllByTypeHas(rows, types[1..], e);
    }
  }

  lemma FullHas(rows: seq<Edge>, types: seq<string>, e: Edge)
    ensures e in Full(rows, types) <==> e in rows && (types == [] || e.kind in types)
  {
    var s := if types == [] then rows else AllByType(rows, types);
    SameElements(StableSort(EdgeLe, s), s);
    AllByTypeHas(rows, types, e);
  }

  /** The edges of `g` and where they lead are those of the question. */
  ghost predicate Poses(q: Query, g: Graph)
  {
    && (forall n, e :: e in g.edges(n) <==> q.Leaves(n, e))
    && (forall e, n :: g.next(e) == Some(n) <==> q.Leads(e, n))
  }

  lemma NeighborIff(q: Query, g: Graph, n: string, m: string)
    requires Poses(q, g)
    ensures m in g.Neighbors(n) <==> exists e :: q.Leaves(n, e) && q.Leads(e, m)
  {
    if m in g.Neighbors(n) {
      var e :| e in g.edges(n) && g.next(e).Some? && g.next(e).value == m;
      assert g.next(e) == Some(m);
    }
    if e :| q.Leaves(n, e) && q.Leads(e, m) {
      assert e in g.edges(n) && g.next(e) == Some(m);
    }
  }

  lemma ReachesOn(q: Query, m: string, j: nat, e: Edge, n: string)
    requires q.Leaves(m, e) && q.Leads(e, n)
    ensures q.Reaches(m, j) ==> q.Reaches(n, j + 1)
  {
  }

  lemma LastEdge(q: Query, n: string, k: nat) returns (m: string, e: Edge)
    requires k > 0 && q.Reaches(n, k)
    ensures q.Reaches(m, k - 1) && q.Leaves(m, e) && q.Leads(e, n)
  {
    m, e :| q.Reaches(m, k - 1) && q.Leaves(m, e) && q.Leads(e, n);
  }

  ghost predicate ReachesBy(q: Query, n: string, k: nat)
  {
    exists j :: 0 <= j <= k && q.Reaches(n, j)
  }

  /** Within a distance is what the distance before reaches or leads to. */
  lemma WithinStep(q: Query, g: Graph, n: string, k: nat)
    requires k > 0
    ensures n in g.Within(q.start, k) <==>
      n in g.Within(q.start, k - 1) || exists m :: m in g.Within(q.start, k - 1) && n in g.Neighbors(m)
  {
  }

  lemma {:induction false} WithinIsReached(q: Query, g: Graph, n: string, k: nat)
    requires Poses(q, g) && n in g.Within(q.start, k)
    ensures ReachesBy(q, n, k)
    decreases k
  {
    if k == 0 {
      assert q.Reaches(n, 0);
    } else if n in g.Within(q.start, k - 1) {
      WithinIsReached(q, g, n, k - 1);
    } else {
      WithinStep(q, g, n, k);
      var m :| m in g.Within(q.start, k - 1) && n in g.Neighbors(m);
      WithinIsReached(q, g, m, k - 1);
      NeighborIff(q, g, m, n);
      var e :| q.Leaves(m, e) && q.Leads(e, n);
      var j: nat :| j <= k - 1 && q.Reaches(m, j);
      ReachesOn(q, m, j, e, n);
    }
  }

  lemma {:induction false} WithinGrows(g: Graph, start: string, n: string, j: nat, k: nat)
    requires j <= k && n in g.Within(start, j)
    ensures n in g.Within(start, k)
    decreases k
  {
    if j < k {
      WithinGrows(g, start, n, j, k - 1);
    }
  }

  lemma OneEdgeFurther(q: Query, g: Graph, m: string, e: Edge, n: string, k: nat)
    requires Poses(q, g) && m in g.Within(q.start, k) && q.Leaves(m, e) && q.Leads(e, n)
    ensures n in g.Within(q.start, k + 1)
  {
    NeighborIff(q, g, m, n);
    WithinStep(q, g, n, k + 1);
  }

  lemma {:induction false} ReachedIsWithin(q: Query, g: Graph, n: string, k: nat)
    requires Poses(q, g) && q.Reaches(n, k)
    ensures n in g.Within(q.start, k)
    decreases k
  {
    if k > 0 {
      var m, e := LastEdge(q, n, k);
      ReachedIsWithin(q, g, m, k - 1);
      OneEdgeFurther(q, g, m, e, n, k - 1);
    }
  }

  lemma WithinIff(q: Query, g: Graph, n: string, k: nat)
    requires Poses(q, g)
    ensures n in g.Within(q.start, k) <==> ReachesBy(q, n, k)
  {
    if n in g.Within(q.start, k) {
      WithinIsReached(q, g, n, k);
    }
    if ReachesBy(q, n, k) {
      var j: nat :| j <= k && q.Reaches(n, j);
      ReachedIsWithin(q, g, n, j);
      WithinGrows(g, q.start, n, j, k);
    }
  }

  lemma NearestIff(q: Query, n: string, k: nat)
    requires k > 0
    ensures q.Nearest(n, k) <==> ReachesBy(q, n, k) && !ReachesBy(q, n, k - 1)
  {
    if ReachesBy(q, n, k) && !ReachesBy(q, n, k - 1) {
      var j: nat :| j <= k && q.Reaches(n, j);
      assert j == k;
    }
  }

  lemma LevelIff(g: Graph, start: string, n: string, k: nat)
    requires k > 0
    ensures n in g.AtDistance(start, k) <==> n in g.Within(start, k) && n !in g.Within(start, k - 1)
  {
  }

  lemma AtDistanceIff(q: Query, g: Graph, n: string, k: nat)
    requires Poses(q, g)
    ensures n in g.AtDistance(q.start, k) <==> q.Nearest(n, k)
  {
    if k == 0 {
      assert q.Reaches(n, 0) <==> n == q.start;
    } else {
      WithinIff(q, g, n, k);
      WithinIff(q, g, n, k - 1);
      NearestIff(q, n, k);
      LevelIff(g, q.start, n, k);
    }
  }

  /** Hops of the graph are answers to the question it poses. */
  lemma HopAnswers(q: Query, g: Graph, h: Hop, maxDepth: nat)
    requires Poses(q, g) && IsHop(g, q.start, h, maxDepth)
    ensures q.Answers(h, maxDepth)
  {
    var n :| n in g.AtDistance(q.start, h.0 - 1) && h.1 in g.edges(n);
    AtDistanceIff(q, g, n, h.0 - 1);
  }

  /** A hop beyond the first level leaves a node that an edge of the level before leads to. */
  lemma EarlierEdge(g: Graph, start: string, h: Hop, maxDepth: nat)
    returns (d: nat, m: string, e: Edge, n: string)
    requires IsHop(g, start, h, maxDepth) && h.0 > 1
    ensures h.0 == d + 2 && m in g.AtDistance(start, d) && e in g.edges(m)
    ensures g.next(e) == Some(n) && h.1 in g.edges(n)
  {
    d := h.0 - 2;
    n :| n in g.AtDistance(start, h.0 - 1) && h.1 in g.edges(n);
    NextLevel(g, start, d);
    m :| m in g.AtDistance(start, d) && n in g.Neighbors(m);
    e :| e in g.edges(m) && g.next(e).Some? && g.next(e).value == n;
  }

  lemma {:induction false} HopDepths(g: Graph, depth: nat, nodes: seq<string>)
    ensures forall h :: h in HopsOf(g, depth, nodes) ==> h.0 == depth
    decreases |nodes|
  {
    if nodes != [] {
      HopDepths(g, depth, nodes[..|nodes| - 1]);
    }
  }

  lemma {:induction false} LevelDepths(g: Graph, levels: seq<seq<string>>)
    ensures forall h :: h in HopsOfLevels(g, levels) ==> h.0 <= |levels|
    decreases |levels|
  {
    if levels != [] {
      LevelDepths(g, levels[..|levels| - 1]);
      HopDepths(g, |levels|, levels[|levels| - 1]);
    }
  }

  lemma CutDepths(
    g: Graph, lookup: string -> seq<Edge>, start: string, levels: seq<seq<string>>, out: seq<Hop>, h: Hop)
    requires WalkedUntilFull(g, lookup, start, levels, out) && h in out
    ensures h.0 <= |levels|
  {
    var last, before := levels[|levels| - 1], HopsOfLevels(g, levels[..|levels| - 1]);
    var i: nat, k: nat :| CutAt(g, lookup, |levels|, last, before, out, i, k);
    LevelDepths(g, levels[..|levels| - 1]);
    HopDepths(g, |levels|, last[..i]);
  }

  /** All hops of the levels before the one in which the walk stopped are out. */
  lemma CutKeepsLevels(
    g: Graph, lookup: string -> seq<Edge>, start: string, levels: seq<seq<string>>, out: seq<Hop>, d: nat, n: string,
    e: Edge)
    requires WalkedUntilFull(g, lookup, start, levels, out)
    requires d + 1 < |levels| && n in g.AtDistance(start, d) && e in g.edges(n)
    ensures (d + 1, e) in out
  {
    var before := levels[..|levels| - 1];
    assert n in Elements(levels[d]);
    InLevelHops(g, before, d, n, e);
    var i: nat, k: nat :| CutAt(g, lookup, |levels|, levels[|levels| - 1], HopsOfLevels(g, before), out, i, k);
  }

  /** With a hop all hops of the levels before it are out. */
  ghost predicate KeepsLevels(g: Graph, start: string, out: seq<Hop>)
  {
    forall d, m, e :: EarlierHop(g, start, out, d, m, e) ==> (d + 1, e) in out
  }

  ghost predicate HasDepth(out: seq<Hop>, depth: nat)
  {
    exists h :: h in out && h.0 == depth
  }

  ghost predicate EarlierHop(g: Graph, start: string, out: seq<Hop>, d: nat, m: string, e: Edge)
  {
    m in g.AtDistance(start, d) && e in g.edges(m) && HasDepth(out, d + 2)
  }

  lemma EndedKeepsLevels(g: Graph, start: string, levels: seq<seq<string>>, out: seq<Hop>, maxDepth: nat)
    requires WalkedAll(g, start, levels, maxDepth) && out == HopsOfLevels(g, levels)
    ensures KeepsLevels(g, start, out)
  {
    forall d: nat, m, e | EarlierHop(g, start, out, d, m, e)
      ensures (d + 1, e) in out
    {
      LevelDepths(g, levels);
      WalkedIsComplete(g, start, levels, maxDepth, d, m, e);
    }
  }

  lemma FullKeepsLevels(
    g: Graph, lookup: string -> seq<Edge>, start: string, levels: seq<seq<string>>, out: seq<Hop>)
    requires WalkedUntilFull(g, lookup, start, levels, out)
    ensures KeepsLevels(g, start, out)
  {
    forall d: nat, m, e | EarlierHop(g, start, out, d, m, e)
      ensures (d + 1, e) in out
    {
      var h :| h in out && h.0 == d + 2;
      CutDepths(g, lookup, start, levels, out, h);
      CutKeepsLevels(g, lookup, start, levels, out, d, m, e);
    }
  }

  lemma KeptHop(g: Graph, start: string, out: seq<Hop>, d: nat, m: string, e: Edge, h: Hop)
    requires KeepsLevels(g, start, out) && h in out && h.0 == d + 2
    requires m in g.AtDistance(start, d) && e in g.edges(m)
    ensures (d + 1, e) in out
  {
    assert EarlierHop(g, start, out, d, m, e);
  }

  lemma IsLink(g: Graph, out: seq<Hop>, h: Hop, e: Edge, n: string)
    requires h.0 > 0 && (h.0 - 1, e) in out && g.next(e) == Some(n) && h.1 in g.edges(n)
    ensures LinksTo(g, out, h)
  {
  }

  lemma HopContinues(g: Graph, start: string, out: seq<Hop>, maxDepth: nat, h: Hop)
    requires h in out && h.0 > 1 && IsHop(g, start, h, maxDepth) && KeepsLevels(g, start, out)
    ensures LinksTo(g, out, h)
  {
    var d, m, e, n := EarlierEdge(g, start, h, maxDepth);
    KeptHop(g, start, out, d, m, e, h);
    IsLink(g, out, h, e, n);
  }

  lemma BelowLimitIsComplete(q: Query, g: Graph, levels: seq<seq<string>>, maxDepth: nat, h: Hop)
    requires Poses(q, g) && WalkedAll(g, q.start, levels, maxDepth) && q.Answers(h, maxDepth)
    ensures h in HopsOfLevels(g, levels)
  {
    var n :| q.Nearest(n, h.0 - 1) && q.Leaves(n, h.1);
    AtDistanceIff(q, g, n, h.0 - 1);
    WalkedIsComplete(g, q.start, levels, maxDepth, h.0 - 1, n, h.1);
  }

  /** What is found two edges away: an edge of the node that an edge of the
      start leads to is an answer at depth two, or at depth one if it is that
      very node again. */
  lemma TwoEdgesAway(q: Query, maxDepth: nat, e: Edge, m: string, f: Edge)
    requires maxDepth >= 2 && q.Leaves(q.start, e) && q.Leads(e, m) && q.Leaves(m, f)
    ensures q.Answers((1, e), maxDepth)
    ensures q.Answers((if m == q.start then 1 else 2, f), maxDepth)
  {
    assert q.Nearest(q.start, 0);
    assert q.Reaches(q.start, 0);
    assert q.Reaches(m, 1);
    if m != q.start {
      assert q.Nearest(m, 1);
    }
  }

  /** Edges come by type, then by target or else symbol, then by id. */
  lemma EdgesComeByType(a: Edge, b: Edge)
    ensures EdgeLe(a, b) <==>
      && StrLe(a.kind, b.kind)
      && (a.kind == b.kind ==> StrLe(EndOf(a), EndOf(b)) && (EndOf(a) == EndOf(b) ==> StrLe(a.id, b.id)))
  {
    StrLeTotal(a.kind, a.kind);
    StrLeTotal(EndOf(a), EndOf(a));
  }

  function EndOf(e: Edge): string
  {
    match (e.target, e.symbol)
    case (Some(t), _) => t
    case (None, Some(s)) => s
    case (None, None) => ""
  }

  lemma EdgeOrderIsTotal()
    ensures TotalPreorder(EdgeLe)
  {
    forall a: Edge, b: Edge
      ensures EdgeLe(a, b) || EdgeLe(b, a)
    {
      EdgesComeByType(a, b);
      EdgesComeByType(b, a);
      StrLeTotal(a.kind, b.kind);
      StrLeTotal(EndOf(a), EndOf(b));
      StrLeTotal(a.id, b.id);
    }
    forall a: Edge, b: Edge, c: Edge | EdgeLe(a, b) && EdgeLe(b, c)
      ensures EdgeLe(a, c)
    {
      EdgeOrderCarries(a, b, c);
    }
  }

  lemma EdgeOrderCarries(a: Edge, b: Edge, c: Edge)
    requires EdgeLe(a, b) && EdgeLe(b, c)
    ensures EdgeLe(a, c)
  {
    EdgesComeByType(a, b);
    EdgesComeByType(b, c);
    EdgesComeByType(a, c);
    StrLeTransitive(a.kind, b.kind, c.kind);
    if a.kind == c.kind {
      StrLeAntisymmetric(a.kind, b.kind);
      StrLeTransitive(EndOf(a), EndOf(b), EndOf(c));
      if EndOf(a) == EndOf(c) {
        StrLeAntisymmetric(EndOf(a), EndOf(b));
        StrLeTransitive(a.id, b.id, c.id);
      }
    }
  }

  /** A node's edges are listed in that order. */
  lemma EdgesInOrder(rows: seq<Edge>, types: seq<string>)
    ensures Ordered(EdgeLe, Full(rows, types))
  {
    var s := if types == [] then rows else AllByType(rows, types);
    EdgeOrderIsTotal();
    SortIsStable(EdgeLe, (a: Edge, b: Edge) => true, s);
    forall i, j | 0 <= i < j < |Full(rows, types)|
      ensures EdgeLe(Full(rows, types)[i], Full(rows, types)[j])
    {
      assert Lex(EdgeLe, (a: Edge, b: Edge) => true, Full(rows, types)[i], Full(rows, types)[j]);
    }
  }

  /** The walk over the store: the edges of the given direction and types. In
      terms of edges: every hop is an edge of a node at the distance before its
      depth, hops beyond the first level continue hops of the level before,
      and below the limit no such edge is missing. */
  method TraverseFrom(
    outgoing: string -> seq<Edge>, incoming: string -> seq<Edge>, start: string, direction: Direction,
    types: seq<string>, maxDepth: nat, limit: nat) returns (out: seq<Hop>, ghost levels: seq<seq<string>>)
    ensures var g := GraphOf(outgoing, incoming, direction, types);
      && |out| <= limit && Sound(g, start, out, maxDepth)
      && (|out| < limit ==> WalkedAll(g, start, levels, maxDepth) && out == HopsOfLevels(g, levels))
      && (|out| == limit > 0 ==>
            var lookup := LookupOf(if direction.Outgoing? then outgoing else incoming, types, limit);
            WalkedUntilFull(g, lookup, start, levels, out))
    ensures var q := Query(if direction.Outgoing? then outgoing else incoming, direction, types, start);
      && (forall h :: h in out ==> q.Answers(h, maxDepth))
      && (|out| < limit ==> forall h :: q.Answers(h, maxDepth) ==> h in out)
      && (forall h :: h in out && h.0 > 1 ==> q.Continues(out, h))
  {
    var rows := if direction.Outgoing? then outgoing else incoming;
    var g := GraphOf(outgoing, incoming, direction, types);
    var lookup := LookupOf(rows, types, limit);
    StoreLooks(rows, types, limit, g, lookup);
    out, levels := Walk(g, lookup, start, maxDepth, limit);
    ghost var q := Query(rows, direction, types, start);
    GraphPoses(outgoing, incoming, q, g);
    HopsAnswer(q, g, out, maxDepth);
    if |out| < limit {
      AnswersAreHops(q, g, levels, out, maxDepth);
      EndedKeepsLevels(g, start, levels, out, maxDepth);
    } else if limit > 0 {
      FullKeepsLevels(g, lookup, start, levels, out);
    }
    HopsAreLinked(g, start, out, maxDepth);
    LinkedContinue(q, g, out);
  }

  lemma GraphPoses(outgoing: string -> seq<Edge>, incoming: string -> seq<Edge>, q: Query, g: Graph)
    requires g == GraphOf(outgoing, incoming, q.direction, q.types)
    requires q.rows == if q.direction.Outgoing? then outgoing else incoming
    ensures Poses(q, g)
  {
    forall n, e
      ensures e in g.edges(n) <==> q.Leaves(n, e)
    {
      FullHas(q.rows(n), q.types, e);
    }
  }

  lemma HopsAnswer(q: Query, g: Graph, out: seq<Hop>, maxDepth: nat)
    requires Poses(q, g) && Sound(g, q.start, out, maxDepth)
    ensures forall h :: h in out ==> q.Answers(h, maxDepth)
  {
    forall h | h in out
      ensures q.Answers(h, maxDepth)
    {
      HopAnswers(q, g, h, maxDepth);
    }
  }

  lemma AnswersAreHops(q: Query, g: Graph, levels: seq<seq<string>>, out: seq<Hop>, maxDepth: nat)
    requires Poses(q, g) && WalkedAll(g, q.start, levels, maxDepth) && out == HopsOfLevels(g, levels)
    ensures forall h :: q.Answers(h, maxDepth) ==> h in out
  {
    forall h | q.Answers(h, maxDepth)
      ensures h in out
    {
      BelowLimitIsComplete(q, g, levels, maxDepth, h);
    }
  }

  /** Every hop beyond the first level continues another one, as far as the graph goes. */
  ghost predicate Linked(g: Graph, out: seq<Hop>)
  {
    forall h :: h in out && h.0 > 1 ==> LinksTo(g, out, h)
  }

  ghost predicate LinksTo(g: Graph, out: seq<Hop>, h: Hop)
  {
    exists e, n :: (h.0 - 1, e) in out && g.next(e) == Some(n) && h.1 in g.edges(n)
  }

  lemma HopsAreLinked(g: Graph, start: string, out: seq<Hop>, maxDepth: nat)
    requires Sound(g, start, out, maxDepth) && KeepsLevels(g, start, out)
    ensures Linked(g, out)
  {
    forall h | h in out && h.0 > 1
      ensures LinksTo(g, out, h)
    {
      HopContinues(g, start, out, maxDepth, h);
    }
  }

  lemma LinkedContinue(q: Query, g: Graph, out: seq<Hop>)
    requires Poses(q, g) && Linked(g, out)
    ensures forall h :: h in out && h.0 > 1 ==> q.Continues(out, h)
  {
    forall h | h in out && h.0 > 1
      ensures q.Continues(out, h)
    {
      assert LinksTo(g, out, h);
    }
  }

  function GraphOf(
    outgoing: string -> seq<Edge>, incoming: string -> seq<Edge>, direction: Direction, types: seq<string>): Graph
  {
    var rows := if direction.Outgoing? then outgoing else incoming;
    Graph((n: string) => Full(rows(n), types), (e: Edge) => Neighbor(e, direction))
  }

  function LookupOf(rows: string -> seq<Edge>, types: seq<string>, limit: nat): string -> seq<Edge>
  {
    (n: string) => Looked(rows(n), types, limit)
  }

  lemma {:induction false} ByTypeIsPart(rows: seq<Edge>, types: seq<string>, limit: nat, e: Edge)
    requires e in ByType(rows, types, limit)
    ensures e in AllByType(rows, types)
    decreases |types|
  {
    if e !in Take(OfType(rows, types[0]), limit) {
      ByTypeIsPart(rows, types[1..], limit, e);
    }
  }

  lemma LookedIsPart(rows: seq<Edge>, types: seq<string>, limit: nat, e: Edge)
    requires e in Looked(rows, types, limit)
    ensures e in Full(rows, types)
  {
    if types == [] {
      SameElements(StableSort(EdgeLe, Take(rows, limit)), Take(rows, limit));
      SameElements(StableSort(EdgeLe, rows), rows);
    } else {
      SameElements(StableSort(EdgeLe, ByType(rows, types, limit)), ByType(rows, types, limit));
      SameElements(StableSort(EdgeLe, AllByType(rows, types)), AllByType(rows, types));
      ByTypeIsPart(rows, types, limit, e);
    }
  }

  lemma StoreLooks(
    rows: string -> seq<Edge>, types: seq<string>, limit: nat, g: Graph, lookup: string -> seq<Edge>)
    requires forall n :: g.edges(n) == Full(rows(n), types)
    requires lookup == LookupOf(rows, types, limit)
    ensures Looks(g, lookup, limit)
  {
    forall n | |lookup(n)| < limit
      ensures lookup(n) == g.edges(n)
    {
      ShortLookupIsComplete(rows(n), types, limit);
    }
    forall n, e | e in lookup(n)
      ensures e in g.edges(n)
    {
      LookedIsPart(rows(n), types, limit, e);
    }
  }
}
