/** Chunking a whole document: headings and tables are chunks of their own,
    runs of paragraphs are flushed together, and every chunk points to the
    chunk of its heading. */
module DocumentChunks {
  import opened Wrappers
  import opened Text
  import opened Splitting
  import opened Chunking
  import opened Tables
  import opened Headings

  datatype Content = IsHeading | IsParagraph(unit: Unit) | IsTable(table: TableUnit)

  datatype DocUnit = DocUnit(node: Node, content: Content)

  datatype Chunk = Chunk(node: Node, text: string, contextual: string, table: Option<TableChunk>)

  function UnitNodes(units: seq<DocUnit>): seq<Node>
  {
    seq(|units|, i requires 0 <= i < |units| => units[i].node)
  }

  function ChunkNodes(chunks: seq<Chunk>): seq<Node>
  {
    seq(|chunks|, i requires 0 <= i < |chunks| => chunks[i].node)
  }

  /** Headings are exactly the units marked as such. */
  predicate KindsAgree(units: seq<DocUnit>)
  {
    forall i :: 0 <= i < |units| ==> (units[i].node.isHeading <==> units[i].content.IsHeading?)
  }

  // ---- links -----------------------------------------------------------------------------

  /** From the index of a heading unit to the index of its chunk. */
  type HeadingMap = map<nat, nat>

  function Mapped(links: HeadingMap, p: Option<nat>): Option<nat>
  {
    if p.Some? && p.value in links then Some(links[p.value]) else None
  }

  /** The parent is an earlier heading chunk. */
  ghost predicate Linked(nodes: seq<Node>, c: nat)
    requires c < |nodes|
  {
    nodes[c].parent.Some? ==> nodes[c].parent.value < c && nodes[nodes[c].parent.value].isHeading
  }

  ghost predicate AllLinked(nodes: seq<Node>)
  {
    forall c :: 0 <= c < |nodes| ==> Linked(nodes, c)
  }

  /** The chunk of heading unit `j` has its level and text. */
  ghost predicate MapsHeading(units: seq<Node>, links: HeadingMap, nodes: seq<Node>, j: nat)
    requires j in links
  {
    && j < |units| && units[j].isHeading && links[j] < |nodes| && nodes[links[j]].isHeading
    && nodes[links[j]].level == units[j].level && nodes[links[j]].text == units[j].text
  }

  /** The headings among the first `i` units are mapped to their chunks. */
  ghost predicate MapOk(units: seq<Node>, i: nat, links: HeadingMap, nodes: seq<Node>)
    requires i <= |units|
  {
    && (forall j: nat :: j in links <==> j < i && units[j].isHeading)
    && (forall j :: j in links ==> MapsHeading(units, links, nodes, j))
  }

  /** Following parents from a mapped heading spells the same in units and chunks. */
  ghost predicate TrailsAgree(units: seq<Node>, links: HeadingMap, nodes: seq<Node>)
  {
    forall j :: j in links ==> Trail(nodes, Some(links[j])) == Trail(units, Some(j))
  }

  /** For every bound, the last heading below it is mapped to the last such chunk. */
  ghost predicate LastsAgree(units: seq<Node>, i: nat, links: HeadingMap, nodes: seq<Node>)
    requires i <= |units|
  {
    forall bound :: LastAgrees(units, i, links, nodes, bound)
  }

  ghost predicate LastAgrees(units: seq<Node>, i: nat, links: HeadingMap, nodes: seq<Node>, bound: Option<int>)
    requires i <= |units|
  {
    Mapped(links, LastBelow(units, i, bound)) == LastBelow(nodes, |nodes|, bound)
  }

  /** `node` stands for unit `i`: its path, and its parent's chunk. */
  ghost predicate StandsFor(units: seq<Node>, i: nat, links: HeadingMap, node: Node)
    requires i < |units|
  {
    && node.parent == Mapped(links, units[i].parent) && node.path == units[i].path
    && node.isHeading == units[i].isHeading
    && (node.isHeading ==> node.level == units[i].level && node.text == units[i].text)
  }

  /** All that is kept while the first `i` units have been turned into chunks. */
  ghost predicate Progress(units: seq<Node>, i: nat, links: HeadingMap, nodes: seq<Node>)
    requires i <= |units|
  {
    && MapOk(units, i, links, nodes) && AllLinked(nodes)
    && (WellNested(units) ==>
          WellNested(nodes) && TrailsAgree(units, links, nodes) && LastsAgree(units, i, links, nodes))
  }

  lemma LinkedInMore(nodes: seq<Node>, node: Node)
    requires AllLinked(nodes)
    requires node.parent.Some? ==> node.parent.value < |nodes| && nodes[node.parent.value].isHeading
    ensures AllLinked(nodes + [node])
  {
    var more := nodes + [node];
    forall c | 0 <= c < |more|
      ensures Linked(more, c)
    {
      if c < |nodes| { assert Linked(nodes, c); }
    }
  }

  lemma TrailsAgreeInMore(units: seq<Node>, i: nat, links: HeadingMap, nodes: seq<Node>, node: Node)
    requires i <= |units| && MapOk(units, i, links, nodes) && TrailsAgree(units, links, nodes)
    ensures MapOk(units, i, links, nodes + [node]) && TrailsAgree(units, links, nodes + [node])
  {
    forall j | j in links
      ensures MapsHeading(units, links, nodes + [node], j)
      ensures Trail(nodes + [node], Some(links[j])) == Trail(units, Some(j))
    {
      assert MapsHeading(units, links, nodes, j);
      TrailOfPrefix(nodes, [node], Some(links[j]));
    }
  }

  lemma MapOkInMore(units: seq<Node>, i: nat, links: HeadingMap, nodes: seq<Node>, node: Node)
    requires i <= |units| && MapOk(units, i, links, nodes)
    ensures MapOk(units, i, links, nodes + [node])
  {
    forall j | j in links
      ensures MapsHeading(units, links, nodes + [node], j)
    {
      assert MapsHeading(units, links, nodes, j);
    }
  }

  /** A chunk of unit `at` has the place among the chunks that the unit has among the units. */
  lemma PlaceOfChunk(units: seq<Node>, i: nat, links: HeadingMap, nodes: seq<Node>, at: nat, node: Node)
    requires at < |units| && i <= at && Progress(units, i, links, nodes) && StandsFor(units, at, links, node)
    requires WellNested(units) && forall k :: i <= k < at ==> !units[k].isHeading
    ensures node.parent == LastBelow(nodes, |nodes|, BoundOf(node)) && node.path == Trail(nodes, node.parent)
  {
    assert Nested(units, at);
    LastBelowPastOthers(units, i, at, BoundOf(node));
    assert LastAgrees(units, i, links, nodes, BoundOf(node));
    if units[at].parent.Some? {
      assert units[at].parent.value in links;
    }
  }

  /** What a chunk of unit `at`, no heading having come in between, leaves as it was. */
  lemma ChunkAppended(units: seq<Node>, i: nat, links: HeadingMap, nodes: seq<Node>, at: nat, node: Node)
    requires at < |units| && i <= at && Progress(units, i, links, nodes) && StandsFor(units, at, links, node)
    requires forall k :: i <= k < at ==> !units[k].isHeading
    ensures MapOk(units, i, links, nodes + [node]) && AllLinked(nodes + [node])
    ensures WellNested(units) ==> WellNested(nodes + [node]) && TrailsAgree(units, links, nodes + [node])
  {
    if node.parent.Some? {
      assert MapsHeading(units, links, nodes, units[at].parent.value);
    }
    LinkedInMore(nodes, node);
    MapOkInMore(units, i, links, nodes, node);
    if WellNested(units) {
      PlaceOfChunk(units, i, links, nodes, at, node);
      OneMoreNested(nodes, node);
      TrailsAgreeInMore(units, i, links, nodes, node);
    }
  }

  /** One more chunk of unit `at`, not a heading. */
  lemma OneMoreChunk(units: seq<Node>, i: nat, links: HeadingMap, nodes: seq<Node>, at: nat, node: Node)
    requires at < |units| && i <= at && Progress(units, i, links, nodes) && StandsFor(units, at, links, node)
    requires !node.isHeading && forall k :: i <= k < at ==> !units[k].isHeading
    ensures Progress(units, i, links, nodes + [node])
  {
    ChunkAppended(units, i, links, nodes, at, node);
    if WellNested(units) {
      forall bound
        ensures LastAgrees(units, i, links, nodes + [node], bound)
      {
        assert LastAgrees(units, i, links, nodes, bound);
        LastBelowOfPrefix(nodes, [node], |nodes|, bound);
      }
    }
  }

  /** Units that are not headings change no link. */
  lemma PastOthers(units: seq<Node>, i: nat, j: nat, links: HeadingMap, nodes: seq<Node>)
    requires i <= j <= |units| && Progress(units, i, links, nodes)
    requires forall k :: i <= k < j ==> !units[k].isHeading
    ensures Progress(units, j, links, nodes)
  {
    if WellNested(units) {
      forall bound
        ensures LastAgrees(units, j, links, nodes, bound)
      {
        assert LastAgrees(units, i, links, nodes, bound);
        LastBelowPastOthers(units, i, j, bound);
      }
    }
  }

  lemma HeadingIsLast(units: seq<Node>, i: nat, links: HeadingMap, nodes: seq<Node>, node: Node)
    requires i < |units| && units[i].isHeading && LastsAgree(units, i, links, nodes)
    requires node.isHeading && node.level == units[i].level
    ensures LastsAgree(units, i + 1, links[i := |nodes|], nodes + [node])
  {
    var next, linked, more := i + 1, links[i := |nodes|], nodes + [node];
    forall bound
      ensures LastAgrees(units, next, linked, more, bound)
    {
      LastBelowOfPrefix(nodes, [node], |nodes|, bound);
      assert LastAgrees(units, i, links, nodes, bound);
    }
  }

  /** A heading's chunk is linked for the units after it. */
  lemma LinkHeading(units: seq<Node>, i: nat, links: HeadingMap, nodes: seq<Node>, node: Node)
    requires i < |units| && units[i].isHeading && Progress(units, i, links, nodes)
    requires StandsFor(units, i, links, node)
    ensures Progress(units, i + 1, links[i := |nodes|], nodes + [node])
  {
    ChunkAppended(units, i, links, nodes, i, node);
    var more, linked := nodes + [node], links[i := |nodes|];
    forall j | j in linked
      ensures MapsHeading(units, linked, more, j)
    {
      if j != i { assert MapsHeading(units, links, more, j); }
    }
    if WellNested(units) {
      HeadingTrail(units, i, links, nodes, node);
      HeadingIsLast(units, i, links, nodes, node);
    }
  }

  lemma HeadingTrail(units: seq<Node>, i: nat, links: HeadingMap, nodes: seq<Node>, node: Node)
    requires i < |units| && units[i].isHeading && Progress(units, i, links, nodes)
    requires StandsFor(units, i, links, node) && WellNested(units)
    ensures Trail(nodes + [node], Some(|nodes|)) == Trail(units, Some(i))
  {
    assert Nested(units, i);
    PlaceOfChunk(units, i, links, nodes, i, node);
    if units[i].parent.Some? {
      assert MapsHeading(units, links, nodes, units[i].parent.value);
    }
    TrailOfPrefix(nodes, [node], node.parent);
  }

  // ---- chunks -----------------------------------------------------------------------------

  lemma ChunkNodesOfMore(chunks: seq<Chunk>, c: Chunk)
    ensures ChunkNodes(chunks + [c]) == ChunkNodes(chunks) + [c.node]
  {
  }

  /** The embedding input of a paragraph chunk, special tokens included, is within the budget. */
  ghost predicate PayloadOk(b: Budgeter, c: Chunk)
  {
    !c.node.isHeading && c.table.None? ==> b.tok.specialTokens + b.tok.Count(c.contextual) <= b.PayloadBudget()
  }

  ghost predicate PayloadsOk(b: Budgeter, chunks: seq<Chunk>)
  {
    forall c :: c in chunks ==> PayloadOk(b, c)
  }

  /** The header leaves a token, and no token of the text alone exceeds what it leaves. */
  ghost predicate Chunkable(b: Budgeter, header: string, text: string)
  {
    b.tok.Count(header) < b.Available() && Splittable(b.tok, Words(text), b.BodyBudget(header).bodyMax)
  }

  /** Chunkability as a condition on a path and a text. */
  ghost function Judge(b: Budgeter, headerOf: seq<string> -> string): (seq<string>, string) -> bool
  {
    (path: seq<string>, text: string) => Chunkable(b, headerOf(path), text)
  }

  ghost predicate PairOk(ok: (seq<string>, string) -> bool, u: DocUnit, v: DocUnit)
  {
    u.content.IsParagraph? && v.content.IsParagraph? && u.node.path == v.node.path ==>
      ok(u.node.path, v.content.unit.text)
  }

  /** Every paragraph is fine under the path of every paragraph with the same path. */
  ghost predicate AllOk(ok: (seq<string>, string) -> bool, units: seq<DocUnit>)
  {
    forall i, j :: 0 <= i < |units| && 0 <= j < |units| ==> PairOk(ok, units[i], units[j])
  }

  /** Every header leaves a token, and no token of a paragraph alone exceeds what its header leaves. */
  ghost predicate AllChunkable(b: Budgeter, headerOf: seq<string> -> string, units: seq<DocUnit>)
  {
    AllOk(Judge(b, headerOf), units)
  }

  /** The fitted header of every path. */
  function Headers(b: Budgeter, title: string): seq<string> -> string
  {
    (path: seq<string>) => HeaderOf(b, title, path)
  }

  /** The chunks of a run of paragraphs, all with the first one's parent and path. */
  method AppendBodies(
    b: Budgeter, header: string, bodies: seq<Body>, ghost units: seq<Node>, ghost i: nat, ghost links: HeadingMap,
    node: Node, chunks: seq<Chunk>) returns (more: seq<Chunk>)
    requires i < |units| && Progress(units, i, links, ChunkNodes(chunks)) && StandsFor(units, i, links, node)
    requires !node.isHeading
    requires forall c :: c in bodies ==> IsUnder(header, c.text, c.contextual)
    ensures Progress(units, i, links, ChunkNodes(more)) && Extends(chunks, node, bodies, more)
  {
    more := chunks;
    for k := 0 to |bodies|
      invariant Progress(units, i, links, ChunkNodes(more))
      invariant |more| == |chunks| + k && more[..|chunks|] == chunks
      invariant forall j :: 0 <= j < k ==> more[|chunks| + j] == Chunk(node, bodies[j].text, bodies[j].contextual, None)
    {
      var c := Chunk(node, bodies[k].text, bodies[k].contextual, None);
      OneMoreChunk(units, i, links, ChunkNodes(more), i, node);
      ChunkNodesOfMore(more, c);
      more := more + [c];
    }
  }

  method AppendTables(
    contextual: TableChunk -> string, tables: seq<TableChunk>, ghost units: seq<Node>, ghost i: nat,
    ghost links: HeadingMap, node: Node, chunks: seq<Chunk>) returns (more: seq<Chunk>)
    requires i < |units| && Progress(units, i, links, ChunkNodes(chunks)) && StandsFor(units, i, links, node)
    requires !node.isHeading
    ensures Progress(units, i, links, ChunkNodes(more))
    ensures |more| == |chunks| + |tables| && more[..|chunks|] == chunks
    ensures forall k :: 0 <= k < |tables| ==>
      more[|chunks| + k] == Chunk(node, [], contextual(tables[k]), Some(tables[k]))
  {
    more := chunks;
    for k := 0 to |tables|
      invariant Progress(units, i, links, ChunkNodes(more))
      invariant |more| == |chunks| + k && more[..|chunks|] == chunks
      invariant forall j :: 0 <= j < k ==>
        more[|chunks| + j] == Chunk(node, [], contextual(tables[j]), Some(tables[j]))
    {
      var c := Chunk(node, [], contextual(tables[k]), Some(tables[k]));
      OneMoreChunk(units, i, links, ChunkNodes(more), i, node);
      ChunkNodesOfMore(more, c);
      more := more + [c];
    }
  }

  // ---- what the chunks hold --------------------------------------------------------------

  /** What a chunk shows, without its link. */
  datatype Shown =
    Shown(isHeading: bool, path: seq<string>, text: string, contextual: string, table: Option<TableChunk>)

  function ShownOf(c: Chunk): Shown
  {
    Shown(c.node.isHeading, c.node.path, c.text, c.contextual, c.table)
  }

  function ShownAll(chunks: seq<Chunk>): seq<Shown>
  {
    seq(|chunks|, i requires 0 <= i < |chunks| => ShownOf(chunks[i]))
  }

  lemma ShownMore(chunks: seq<Chunk>, more: seq<Chunk>, extra: seq<Shown>)
    requires |more| == |chunks| + |extra| && more[..|chunks|] == chunks
    requires forall k :: 0 <= k < |extra| ==> ShownOf(more[|chunks| + k]) == extra[k]
    ensures ShownAll(more) == ShownAll(chunks) + extra
  {
    forall i | 0 <= i < |more|
      ensures ShownOf(more[i]) == (ShownAll(chunks) + extra)[i]
    {
      if i < |chunks| {
        assert more[i] == more[..|chunks|][i];
      } else {
        assert more[i] == more[|chunks| + (i - |chunks|)];
      }
    }
  }

  /** A stretch of units and what it becomes. */
  datatype Portion =
    | HeadingPortion(at: nat)
    | TablePortion(at: nat, tables: seq<TableChunk>)
    | RunPortion(at: nat, end: nat, bodies: seq<Body>)
  {
    /** The unit after the last one of the stretch. */
    function Next(): nat
    {
      if RunPortion? then end else at + 1
    }
  }

  /** What a portion's chunks show. */
  function PortionShows(headerOf: seq<string> -> string, units: seq<DocUnit>, p: Portion): seq<Shown>
  {
    if p.at >= |units| then []
    else
      var u := units[p.at].node;
      match p
      case HeadingPortion(_) => [Shown(true, u.path, u.text, ContextualText(headerOf(u.path), u.text), None)]
      case TablePortion(_, tables) => TablesShow(u.path, headerOf(u.path), tables)
      case RunPortion(_, _, bodies) => BodiesShow(u.path, bodies)
  }

  function TablesShow(path: seq<string>, header: string, tables: seq<TableChunk>): seq<Shown>
  {
    seq(|tables|, k requires 0 <= k < |tables| =>
      Shown(false, path, [], TableContext(header)(tables[k]), Some(tables[k])))
  }

  function BodiesShow(path: seq<string>, bodies: seq<Body>): seq<Shown>
  {
    seq(|bodies|, k requires 0 <= k < |bodies| => Shown(false, path, bodies[k].text, bodies[k].contextual, None))
  }

  /** `bodies` are the chunks of a run of paragraphs. */
  ghost predicate IsRunChunking(b: Budgeter, header: string, run: seq<Unit>, bodies: seq<Body>)
  {
    exists parts, pieces, groups, windows, merged ::
      IsChunking(b, header, run, parts, pieces, groups, windows, merged) && AreBodies(b.tok, header, merged, bodies)
  }

  /** Without overlap the chunks of a run hold the words of its paragraphs, in
      order, each word whole that is within the budget. */
  lemma RunChunksHoldWords(b: Budgeter, header: string, run: seq<Unit>, bodies: seq<Body>)
    requires IsRunChunking(b, header, run, bodies) && b.BodyBudget(header).overlap <= 0
    ensures WordsOfAll(BodyTexts(bodies)) == RunWords(b, header, run)
    ensures (forall w :: w in WordsOfAll(UnitTexts(run)) ==> b.tok.Count(w) <= b.BodyBudget(header).bodyMax)
      ==> WordsOfAll(BodyTexts(bodies)) == WordsOfAll(UnitTexts(run))
  {
    var parts, pieces, groups, windows, merged :|
      IsChunking(b, header, run, parts, pieces, groups, windows, merged) && AreBodies(b.tok, header, merged, bodies);
    ChunksHoldTheRun(b, header, run, parts, pieces, groups, windows, merged, bodies);
    if forall w :: w in WordsOfAll(UnitTexts(run)) ==> b.tok.Count(w) <= b.BodyBudget(header).bodyMax {
      ExpandKeepsSmallWords(b.tok, WordsOfAll(UnitTexts(run)), b.BodyBudget(header).bodyMax);
    }
  }

  /** A heading, a table with its chunks, or a run of paragraphs with its chunks. */
  ghost predicate GoodPortion(b: Budgeter, headerOf: seq<string> -> string, units: seq<DocUnit>, p: Portion)
  {
    && p.at < p.Next() <= |units|
    && (var u := units[p.at];
        match p
        case HeadingPortion(_) => u.content.IsHeading?
        case TablePortion(_, tables) =>
          && u.content.IsTable?
          && exists parts ::
               IsTableChunking(b.tok, u.content.table, b.BodyBudget(headerOf(u.node.path)).bodyMax, tables, parts)
        case RunPortion(at, end, bodies) =>
          IsRun(units, at, end) && IsRunChunking(b, headerOf(u.node.path), Run(units, at, end), bodies))
  }

  /** The unit after the last portion. */
  function Covered(portions: seq<Portion>): nat
  {
    if portions == [] then 0 else portions[|portions| - 1].Next()
  }

  /** A portion's judgement and what it shows, as functions of the portion. */
  datatype Reading = Reading(good: Portion -> bool, shows: Portion -> seq<Shown>)
  {
    function ShowsAll(portions: seq<Portion>): seq<Shown>
    {
      if portions == [] then [] else ShowsAll(portions[..|portions| - 1]) + shows(portions[|portions| - 1])
    }

    /** The portions follow each other from the first unit to `n`, no two runs side by side. */
    ghost predicate Covers(portions: seq<Portion>, n: nat)
    {
      && (forall p :: p in portions ==> good(p))
      && (forall j, k :: 0 <= j < |portions| && k == j + 1 < |portions| ==>
            portions[j].Next() == portions[k].at && !(portions[j].RunPortion? && portions[k].RunPortion?))
      && (portions != [] ==> portions[0].at == 0) && Covered(portions) == n
    }

    /** The first `n` units have become exactly these chunks. */
    ghost predicate Made(portions: seq<Portion>, n: nat, chunks: seq<Chunk>)
    {
      Covers(portions, n) && ShownAll(chunks) == ShowsAll(portions)
    }
  }

  predicate EndsInRun(portions: seq<Portion>)
  {
    portions != [] && portions[|portions| - 1].RunPortion?
  }

  lemma OneMorePortion(
    r: Reading, portions: seq<Portion>, n: nat, chunks: seq<Chunk>, p: Portion, more: seq<Chunk>)
    requires r.Made(portions, n, chunks) && r.good(p) && p.at == n
    requires !(EndsInRun(portions) && p.RunPortion?)
    requires ShownAll(more) == ShownAll(chunks) + r.shows(p)
    ensures r.Made(portions + [p], p.Next(), more)
  {
    assert (portions + [p])[..|portions|] == portions;
  }

  ghost function ReadingOf(b: Budgeter, headerOf: seq<string> -> string, units: seq<DocUnit>): Reading
  {
    Reading((p: Portion) => GoodPortion(b, headerOf, units, p), (p: Portion) => PortionShows(headerOf, units, p))
  }

  /** `r` accepts every good portion and knows what each shows. */
  ghost predicate Reads(r: Reading, b: Budgeter, headerOf: seq<string> -> string, units: seq<DocUnit>)
  {
    && (forall p {:trigger GoodPortion(b, headerOf, units, p)} :: GoodPortion(b, headerOf, units, p) ==> r.good(p))
    && (forall p {:trigger PortionShows(headerOf, units, p)} :: r.shows(p) == PortionShows(headerOf, units, p))
  }

  // ---- the whole document ---------------------------------------------------------------

  /** The paragraphs `start` to `end`. */
  function Run(units: seq<DocUnit>, start: nat, end: nat): (run: seq<Unit>)
    requires start <= end <= |units| && forall k :: start <= k < end ==> units[k].content.IsParagraph?
    ensures |run| == end - start && forall k :: start <= k < end ==> units[k].content == IsParagraph(run[k - start])
  {
    seq(end - start, k requires 0 <= k < end - start => units[start + k].content.unit)
  }

  /** Units `start` to `end` are paragraphs. */
  ghost predicate IsRun(units: seq<DocUnit>, start: nat, end: nat)
  {
    start <= end <= |units| && forall k :: start <= k < end ==> units[k].content.IsParagraph?
  }

  lemma RunChunkable(b: Budgeter, headerOf: seq<string> -> string, path: seq<string>, run: seq<Unit>)
    requires run != [] && forall k :: 0 <= k < |run| ==> Judge(b, headerOf)(path, run[k].text)
    ensures b.tok.Count(headerOf(path)) < b.Available()
    ensures RunSplittable(b.tok, run, b.BodyBudget(headerOf(path)).bodyMax)
  {
    assert Judge(b, headerOf)(path, run[0].text);
    forall u | u in run
      ensures Splittable(b.tok, Words(u.text), b.BodyBudget(headerOf(path)).bodyMax)
    {
      var k :| 0 <= k < |run| && run[k] == u;
      assert Judge(b, headerOf)(path, run[k].text);
    }
  }

  /** All paragraphs of a run have the parent and path of the first one. */
  lemma RunSharesPath(units: seq<DocUnit>, start: nat, end: nat, j: nat)
    requires IsRun(units, start, end) && start <= j < end && KindsAgree(units) && WellNested(UnitNodes(units))
    ensures units[j].node.path == units[start].node.path && units[j].node.parent == units[start].node.parent
  {
    var nodes := UnitNodes(units);
    SameRunSameParent(nodes, start, j);
    assert nodes[j] == units[j].node && nodes[start] == units[start].node;
  }

  /** A run of a well-nested document is fine under its first paragraph's path. */
  lemma RunIsOk(ok: (seq<string>, string) -> bool, units: seq<DocUnit>, start: nat, end: nat)
    requires IsRun(units, start, end) && start < end && KindsAgree(units)
    requires WellNested(UnitNodes(units)) && AllOk(ok, units)
    ensures forall k :: 0 <= k < end - start ==> ok(units[start].node.path, Run(units, start, end)[k].text)
  {
    forall k | 0 <= k < end - start
      ensures ok(units[start].node.path, Run(units, start, end)[k].text)
    {
      RunSharesPath(units, start, end, start + k);
      assert PairOk(ok, units[start], units[start + k]);
    }
  }

  lemma WholeRunIsChunkable(
    b: Budgeter, headerOf: seq<string> -> string, units: seq<DocUnit>, start: nat, end: nat)
    requires IsRun(units, start, end) && start < end && KindsAgree(units)
    requires WellNested(UnitNodes(units)) && AllChunkable(b, headerOf, units)
    ensures b.tok.Count(headerOf(units[start].node.path)) < b.Available()
    ensures RunSplittable(b.tok, Run(units, start, end), b.BodyBudget(headerOf(units[start].node.path)).bodyMax)
  {
    RunIsOk(Judge(b, headerOf), units, start, end);
    RunChunkable(b, headerOf, units[start].node.path, Run(units, start, end));
  }

  /** The bodies carry their embedding input, within the budget if the run can be. */
  ghost predicate BodiesPayFor(b: Budgeter, header: string, run: seq<Unit>, bodies: seq<Body>)
  {
    && (forall c :: c in bodies ==> IsUnder(header, c.text, c.contextual))
    && (b.tok.Count(header) < b.Available() && RunSplittable(b.tok, run, b.BodyBudget(header).bodyMax)
        ==> forall c :: c in bodies ==> Payload(b.tok, header, c.text) <= b.PayloadBudget())
  }

  /** The bodies of a run, each with its embedding input. */
  method BodiesOfRun(b: Budgeter, header: string, run: seq<Unit>) returns (bodies: seq<Body>)
    requires b.tok.Valid()
    ensures IsRunChunking(b, header, run, bodies) && BodiesPayFor(b, header, run, bodies)
  {
    ghost var parts, pieces, groups, windows, merged;
    bodies, parts, pieces, groups, windows, merged := FlushRun(b, header, run);
    BodiesAreUnderHeader(b.tok, header, merged, bodies);
  }

  /** The first `n` units have become exactly these chunks, linked, and paid for
      if the document can be. */
  ghost predicate Done(
    r: Reading, b: Budgeter, headerOf: seq<string> -> string, units: seq<DocUnit>, n: nat, links: HeadingMap,
    chunks: seq<Chunk>, portions: seq<Portion>)
  {
    && n <= |units| && Progress(UnitNodes(units), n, links, ChunkNodes(chunks))
    && r.Made(portions, n, chunks)
    && (Payable(b, headerOf, units) ==> PayloadsOk(b, chunks))
  }

  ghost predicate Payable(b: Budgeter, headerOf: seq<string> -> string, units: seq<DocUnit>)
  {
    WellNested(UnitNodes(units)) && AllChunkable(b, headerOf, units)
  }

  /** `more` is `chunks` with one chunk for every body. */
  ghost predicate Extends(chunks: seq<Chunk>, node: Node, bodies: seq<Body>, more: seq<Chunk>)
  {
    && |more| == |chunks| + |bodies| && more[..|chunks|] == chunks
    && forall k :: 0 <= k < |bodies| ==> more[|chunks| + k] == Chunk(node, bodies[k].text, bodies[k].contextual, None)
  }

  lemma GoodRun(
    b: Budgeter, headerOf: seq<string> -> string, units: seq<DocUnit>, start: nat, end: nat, bodies: seq<Body>)
    requires IsRun(units, start, end) && start < end
    requires IsRunChunking(b, headerOf(units[start].node.path), Run(units, start, end), bodies)
    ensures GoodPortion(b, headerOf, units, RunPortion(start, end, bodies))
  {
  }

  lemma RunIsGood(
    r: Reading, b: Budgeter, headerOf: seq<string> -> string, units: seq<DocUnit>, start: nat, end: nat,
    bodies: seq<Body>)
    requires Reads(r, b, headerOf, units) && IsRun(units, start, end) && start < end
    requires IsRunChunking(b, headerOf(units[start].node.path), Run(units, start, end), bodies)
    ensures r.good(RunPortion(start, end, bodies))
    ensures r.shows(RunPortion(start, end, bodies))
      == BodiesShow(units[start].node.path, bodies)
  {
    GoodRun(b, headerOf, units, start, end, bodies);
    ReadsGood(r, b, headerOf, units, RunPortion(start, end, bodies));
    RunShows(headerOf, units, start, end, bodies);
  }

  lemma ReadsGood(r: Reading, b: Budgeter, headerOf: seq<string> -> string, units: seq<DocUnit>, p: Portion)
    requires Reads(r, b, headerOf, units) && GoodPortion(b, headerOf, units, p)
    ensures r.good(p) && r.shows(p) == PortionShows(headerOf, units, p)
  {
  }

  lemma RunShows(headerOf: seq<string> -> string, units: seq<DocUnit>, start: nat, end: nat, bodies: seq<Body>)
    requires start < |units|
    ensures PortionShows(headerOf, units, RunPortion(start, end, bodies)) == BodiesShow(units[start].node.path, bodies)
  {
  }

  lemma RunShown(
    r: Reading, b: Budgeter, headerOf: seq<string> -> string, units: seq<DocUnit>, start: nat, end: nat,
    bodies: seq<Body>, node: Node, chunks: seq<Chunk>, more: seq<Chunk>, portions: seq<Portion>)
    requires Reads(r, b, headerOf, units) && IsRun(units, start, end) && start < end
    requires node.path == units[start].node.path && !node.isHeading
    requires IsRunChunking(b, headerOf(units[start].node.path), Run(units, start, end), bodies)
    requires Extends(chunks, node, bodies, more)
    requires r.Made(portions, start, chunks) && !EndsInRun(portions)
    ensures r.Made(portions + [RunPortion(start, end, bodies)], end, more)
  {
    RunIsGood(r, b, headerOf, units, start, end, bodies);
    BodiesShown(node, bodies, chunks, more);
    OneMorePortion(r, portions, start, chunks, RunPortion(start, end, bodies), more);
  }

  lemma BodiesShown(node: Node, bodies: seq<Body>, chunks: seq<Chunk>, more: seq<Chunk>)
    requires Extends(chunks, node, bodies, more) && !node.isHeading
    ensures ShownAll(more) == ShownAll(chunks) + BodiesShow(node.path, bodies)
  {
    ShownMore(chunks, more, BodiesShow(node.path, bodies));
  }

  lemma RunPaid(
    b: Budgeter, headerOf: seq<string> -> string, units: seq<DocUnit>, start: nat, end: nat, bodies: seq<Body>,
    node: Node, chunks: seq<Chunk>, more: seq<Chunk>)
    requires KindsAgree(units) && IsRun(units, start, end) && start < end
    requires BodiesPayFor(b, headerOf(units[start].node.path), Run(units, start, end), bodies)
    requires Extends(chunks, node, bodies, more) && (Payable(b, headerOf, units) ==> PayloadsOk(b, chunks))
    ensures Payable(b, headerOf, units) ==> PayloadsOk(b, more)
  {
    if Payable(b, headerOf, units) {
      WholeRunIsChunkable(b, headerOf, units, start, end);
      BodiesPay(b, headerOf(units[start].node.path), bodies, node, chunks, more);
    }
  }

  lemma RunDone(
    r: Reading, b: Budgeter, headerOf: seq<string> -> string, units: seq<DocUnit>, start: nat, end: nat,
    links: HeadingMap, bodies: seq<Body>, more: seq<Chunk>, portions: seq<Portion>)
    requires IsRun(units, start, end) && start < end && Progress(UnitNodes(units), start, links, ChunkNodes(more))
    requires r.Made(portions + [RunPortion(start, end, bodies)], end, more)
    requires Payable(b, headerOf, units) ==> PayloadsOk(b, more)
    requires KindsAgree(units)
    ensures Done(r, b, headerOf, units, end, links, more, portions + [RunPortion(start, end, bodies)])
  {
    PastOthers(UnitNodes(units), start, end, links, ChunkNodes(more));
  }

  /** Flushes the pending paragraphs `start` to `end`. */
  method Flush(
    ghost r: Reading, b: Budgeter, headerOf: seq<string> -> string, units: seq<DocUnit>, start: nat, end: nat,
    links: HeadingMap, chunks: seq<Chunk>, ghost portions: seq<Portion>)
    returns (more: seq<Chunk>, ghost covered: seq<Portion>)
    requires b.tok.Valid() && KindsAgree(units) && IsRun(units, start, end)
    requires Reads(r, b, headerOf, units)
    requires Done(r, b, headerOf, units, start, links, chunks, portions) && !EndsInRun(portions)
    ensures Done(r, b, headerOf, units, end, links, more, covered)
  {
    more, covered := chunks, portions;
    if start == end {
      return;
    }
    var first := units[start].node;
    var header := headerOf(first.path);
    var node := Node(false, 0, [], Mapped(links, first.parent), first.path);
    var bodies := BodiesOfRun(b, header, Run(units, start, end));
    assert UnitNodes(units)[start] == first;
    more := AppendBodies(b, header, bodies, UnitNodes(units), start, links, node, chunks);
    covered := portions + [RunPortion(start, end, bodies)];
    RunShown(r, b, headerOf, units, start, end, bodies, node, chunks, more, portions);
    RunPaid(b, headerOf, units, start, end, bodies, node, chunks, more);
    RunDone(r, b, headerOf, units, start, end, links, bodies, more, portions);
  }

  lemma BodiesPay(
    b: Budgeter, header: string, bodies: seq<Body>, node: Node, chunks: seq<Chunk>, more: seq<Chunk>)
    requires forall c :: c in bodies ==> Payload(b.tok, header, c.text) <= b.PayloadBudget()
    requires forall c :: c in bodies ==> IsUnder(header, c.text, c.contextual)
    requires Extends(chunks, node, bodies, more) && PayloadsOk(b, chunks)
    ensures PayloadsOk(b, more)
  {
    forall k | 0 <= k < |more|
      ensures PayloadOk(b, more[k])
    {
      if k < |chunks| {
        assert chunks[k] in chunks && more[k] == more[..|chunks|][k];
      } else {
        var c := bodies[k - |chunks|];
        assert c in bodies && more[k] == more[|chunks| + (k - |chunks|)];
        ContextualIff(header, c.text, c.contextual);
      }
    }
  }

  function TableContext(header: string): TableChunk -> string
  {
    (t: TableChunk) => ContextualText(header, RenderTable(t.rows, t.caption))
  }

  lemma TablesPay(b: Budgeter, chunks: seq<Chunk>, more: seq<Chunk>)
    requires |chunks| <= |more| && more[..|chunks|] == chunks && PayloadsOk(b, chunks)
    requires forall k :: |chunks| <= k < |more| ==> more[k].node.isHeading || more[k].table.Some?
    ensures PayloadsOk(b, more)
  {
    forall k | 0 <= k < |more|
      ensures PayloadOk(b, more[k])
    {
      if k < |chunks| { assert chunks[k] in chunks && more[k] == more[..|chunks|][k]; }
    }
  }

  /** Turns the table unit `i` into chunks. */
  method AddTable(
    b: Budgeter, header: string, units: seq<DocUnit>, i: nat, tables: seq<TableChunk>, links: HeadingMap,
    chunks: seq<Chunk>) returns (more: seq<Chunk>)
    requires KindsAgree(units) && i < |units| && units[i].content.IsTable?
    requires Progress(UnitNodes(units), i, links, ChunkNodes(chunks))
    ensures Progress(UnitNodes(units), i + 1, links, ChunkNodes(more))
    ensures PayloadsOk(b, chunks) ==> PayloadsOk(b, more)
    ensures ShownAll(more) == ShownAll(chunks) + TablesShow(units[i].node.path, header, tables)
  {
    ghost var nodes := UnitNodes(units);
    var u := units[i].node;
    var node := Node(false, 0, [], Mapped(links, u.parent), u.path);
    more := AppendTables(TableContext(header), tables, nodes, i, links, node, chunks);
    PastOthers(nodes, i, i + 1, links, ChunkNodes(more));
    ShownMore(chunks, more, TablesShow(u.path, header, tables));
    if PayloadsOk(b, chunks) {
      forall k | |chunks| <= k < |more|
        ensures more[k].table.Some?
      {
        var j := k - |chunks|;
        assert more[|chunks| + j] == Chunk(node, [], TableContext(header)(tables[j]), Some(tables[j]));
      }
      TablesPay(b, chunks, more);
    }
  }

  lemma TableIsGood(
    r: Reading, b: Budgeter, headerOf: seq<string> -> string, units: seq<DocUnit>, i: nat, tables: seq<TableChunk>,
    parts: seq<Part>)
    requires Reads(r, b, headerOf, units) && i < |units| && units[i].content.IsTable?
    requires
      var header := headerOf(units[i].node.path);
      IsTableChunking(b.tok, units[i].content.table, b.BodyBudget(header).bodyMax, tables, parts)
    ensures r.good(TablePortion(i, tables))
    ensures r.shows(TablePortion(i, tables)) == TablesShow(units[i].node.path, headerOf(units[i].node.path), tables)
  {
    assert GoodPortion(b, headerOf, units, TablePortion(i, tables));
    assert PortionShows(headerOf, units, TablePortion(i, tables))
        == TablesShow(units[i].node.path, headerOf(units[i].node.path), tables);
  }

  method ChunkTable(
    ghost r: Reading, b: Budgeter, headerOf: seq<string> -> string, units: seq<DocUnit>, i: nat, links: HeadingMap,
    chunks: seq<Chunk>, ghost portions: seq<Portion>) returns (more: seq<Chunk>, ghost covered: seq<Portion>)
    requires KindsAgree(units) && i < |units| && units[i].content.IsTable?
    requires Reads(r, b, headerOf, units) && Done(r, b, headerOf, units, i, links, chunks, portions)
    ensures Done(r, b, headerOf, units, i + 1, links, more, covered) && !EndsInRun(covered)
  {
    var header := headerOf(units[i].node.path);
    ghost var parts;
    var tables;
    tables, parts := TableChunks(b.tok, units[i].content.table, b.BodyBudget(header).bodyMax);
    more := AddTable(b, header, units, i, tables, links, chunks);
    covered := portions + [TablePortion(i, tables)];
    TableIsGood(r, b, headerOf, units, i, tables, parts);
    OneMorePortion(r, portions, i, chunks, TablePortion(i, tables), more);
  }

  /** Turns the heading unit `i` into its chunk and links it. */
  method AddHeading(
    ghost r: Reading, b: Budgeter, headerOf: seq<string> -> string, units: seq<DocUnit>, i: nat, links: HeadingMap,
    chunks: seq<Chunk>, ghost portions: seq<Portion>)
    returns (more: seq<Chunk>, linked: HeadingMap, ghost covered: seq<Portion>)
    requires KindsAgree(units) && i < |units| && units[i].content.IsHeading?
    requires Reads(r, b, headerOf, units) && Done(r, b, headerOf, units, i, links, chunks, portions)
    ensures Done(r, b, headerOf, units, i + 1, linked, more, covered) && !EndsInRun(covered)
  {
    var u := units[i].node;
    var node := u.(parent := Mapped(links, u.parent));
    var c := Chunk(node, u.text, ContextualText(headerOf(u.path), u.text), None);
    assert UnitNodes(units)[i] == u;
    LinkHeading(UnitNodes(units), i, links, ChunkNodes(chunks), node);
    ChunkNodesOfMore(chunks, c);
    more, linked := chunks + [c], links[i := |chunks|];
    covered := portions + [HeadingPortion(i)];
    ShownMore(chunks, more, [ShownOf(c)]);
    assert GoodPortion(b, headerOf, units, HeadingPortion(i));
    assert PortionShows(headerOf, units, HeadingPortion(i)) == [ShownOf(c)];
    OneMorePortion(r, portions, i, chunks, HeadingPortion(i), more);
    if PayloadsOk(b, chunks) { TablesPay(b, chunks, more); }
  }

  lemma NothingDone(r: Reading, b: Budgeter, headerOf: seq<string> -> string, units: seq<DocUnit>)
    ensures Done(r, b, headerOf, units, 0, map[], [], [])
  {
  }

  /** Flushes the pending paragraphs and turns unit `i`, a heading or a table, into chunks. */
  method AddUnit(
    ghost r: Reading, b: Budgeter, headerOf: seq<string> -> string, units: seq<DocUnit>, start: nat, i: nat,
    links: HeadingMap, chunks: seq<Chunk>, ghost portions: seq<Portion>)
    returns (more: seq<Chunk>, linked: HeadingMap, ghost covered: seq<Portion>)
    requires b.tok.Valid() && KindsAgree(units) && IsRun(units, start, i)
    requires i < |units| && !units[i].content.IsParagraph?
    requires Reads(r, b, headerOf, units)
    requires Done(r, b, headerOf, units, start, links, chunks, portions) && !EndsInRun(portions)
    ensures Done(r, b, headerOf, units, i + 1, linked, more, covered) && !EndsInRun(covered)
  {
    more, covered := Flush(r, b, headerOf, units, start, i, links, chunks, portions);
    linked := links;
    if units[i].content.IsTable? {
      more, covered := ChunkTable(r, b, headerOf, units, i, links, more, covered);
    } else {
      more, linked, covered := AddHeading(r, b, headerOf, units, i, links, more, covered);
    }
  }

  /** The chunks of all units, whatever their headers. */
  method ChunkUnits(ghost r: Reading, b: Budgeter, headerOf: seq<string> -> string, units: seq<DocUnit>)
    returns (chunks: seq<Chunk>, ghost portions: seq<Portion>, ghost links: HeadingMap)
    requires Reads(r, b, headerOf, units) && b.tok.Valid() && KindsAgree(units)
    ensures Done(r, b, headerOf, units, |units|, links, chunks, portions)
  {
    NothingDone(r, b, headerOf, units);
    chunks, portions := [], [];
    var headingMap: HeadingMap := map[];
    var start := 0;
    for i := 0 to |units|
      invariant start <= i && IsRun(units, start, i)
      invariant Done(r, b, headerOf, units, start, headingMap, chunks, portions) && !EndsInRun(portions)
    {
      if !units[i].content.IsParagraph? {
        chunks, headingMap, portions := AddUnit(r, b, headerOf, units, start, i, headingMap, chunks, portions);
        start := i + 1;
      }
    }
    chunks, portions := Flush(r, b, headerOf, units, start, |units|, headingMap, chunks, portions);
    links := headingMap;
  }

  /** Chunks a document: the units become, in order, heading chunks, the chunks
      of each table and those of each run of paragraphs, nothing else. Every
      chunk points to an earlier heading chunk; the chunks of a well-nested
      document are well nested themselves, and every paragraph payload is within
      the budget whenever the headers leave a token and no single token is too long. */
  method ChunkDocument(b: Budgeter, title: string, units: seq<DocUnit>)
    returns (chunks: seq<Chunk>, ghost portions: seq<Portion>)
    requires b.tok.Valid() && KindsAgree(units)
    ensures ReadingOf(b, Headers(b, title), units).Made(portions, |units|, chunks)
    ensures AllLinked(ChunkNodes(chunks))
    ensures WellNested(UnitNodes(units)) ==> WellNested(ChunkNodes(chunks))
    ensures WellNested(UnitNodes(units)) && AllChunkable(b, Headers(b, title), units) ==> PayloadsOk(b, chunks)
  {
    ghost var links;
    chunks, portions, links :=
      ChunkUnits(ReadingOf(b, Headers(b, title), units), b, Headers(b, title), units);
  }

  /** The embedding input of a table chunk, special tokens included. */
  function TablePayload(b: Budgeter, header: string, t: TableChunk): nat
  {
    b.tok.specialTokens + b.tok.Count(TableContext(header)(t))
  }

  /** Exactly when the embedding inputs of a table's chunks are within the payload
      budget, those aside that show a piece of a cell that cannot be cut further. */
  lemma TablePayloadsFitIff(b: Budgeter, header: string, unit: TableUnit, tables: seq<TableChunk>, parts: seq<Part>)
    requires b.tok.Count(header) < b.Available()
    requires IsTableChunking(b.tok, unit, b.BodyBudget(header).bodyMax, tables, parts)
    ensures
      (forall t :: t in tables ==> TablePayload(b, header, t) <= b.PayloadBudget() || Excused(b.tok, unit, t))
      <==> CanFit(b.tok, unit, b.BodyBudget(header).bodyMax)
  {
    var bodyMax := b.BodyBudget(header).bodyMax;
    TableChunksFitIff(b.tok, unit, bodyMax, tables, parts);
    forall t | t in tables
      ensures TablePayload(b, header, t) <= b.PayloadBudget() <==> t.tokens <= bodyMax
    {
      ChunkCountsItself(b.tok, unit, bodyMax, tables, parts, t);
      PayloadFits(b, header, RenderTable(t.rows, t.caption));
    }
  }

  // ---- from the items of a document to its chunks ------------------------------------------

  /** The units with what the normalized ones leave out: the rows of their
      tables and the pages of their paragraphs. */
  function DocUnits(units: seq<Normalized>, contents: nat -> Content): (r: seq<DocUnit>)
    ensures |r| == |units|
    ensures forall i :: 0 <= i < |units| ==> r[i] == DocUnit(units[i].node, ContentOf(units[i], contents(i)))
  {
    seq(|units|, i requires 0 <= i < |units| => DocUnit(units[i].node, ContentOf(units[i], contents(i))))
  }

  function ContentOf(unit: Normalized, content: Content): Content
  {
    if unit.node.isHeading then IsHeading
    else if unit.isTable then IsTable(if content.IsTable? then content.table else TableUnit([], 0, None))
    else IsParagraph(Unit(unit.node.text, if content.IsParagraph? then content.unit.pageStart else None,
                          if content.IsParagraph? then content.unit.pageEnd else None))
  }

  /** A normalized unit becomes a heading, a table with its rows, or a paragraph with its text and pages. */
  lemma DocUnitMeans(units: seq<Normalized>, contents: nat -> Content, i: nat)
    requires i < |units|
    ensures var made := DocUnits(units, contents)[i]; var u := units[i];
      && made.node == u.node
      && (made.content.IsHeading? <==> u.node.isHeading)
      && (made.content.IsTable? <==> u.isTable && !u.node.isHeading)
      && (made.content.IsTable? && contents(i).IsTable? ==> made.content.table == contents(i).table)
      && (made.content.IsParagraph? ==> made.content.unit.text == u.node.text)
      && (made.content.IsParagraph? && contents(i).IsParagraph? ==>
            made.content.unit.pageStart == contents(i).unit.pageStart &&
            made.content.unit.pageEnd == contents(i).unit.pageEnd)
  {
  }

  lemma DocUnitsKeepNodes(units: seq<Normalized>, contents: nat -> Content)
    ensures UnitNodes(DocUnits(units, contents)) == NodesOf(units) && KindsAgree(DocUnits(units, contents))
  {
    var made := DocUnits(units, contents);
    forall i | 0 <= i < |made|
      ensures made[i].node.isHeading <==> made[i].content.IsHeading?
    {
    }
  }

  /** From items to chunks: whatever the items are, a chunk's parent is the last
      heading chunk before it, for a heading the last one with a smaller level,
      and its path is what following parents spells. */
  method ChunkItems(b: Budgeter, title: string, items: seq<Item>, contents: nat -> Content)
    returns (chunks: seq<Chunk>, ghost units: seq<Normalized>, ghost portions: seq<Portion>)
    requires b.tok.Valid()
    ensures ShapesOf(units) == Kept(items) && WellNested(NodesOf(units))
    ensures ReadingOf(b, Headers(b, title), DocUnits(units, contents)).Made(portions, |units|, chunks)
    ensures WellNested(ChunkNodes(chunks))
    ensures AllChunkable(b, Headers(b, title), DocUnits(units, contents)) ==> PayloadsOk(b, chunks)
  {
    var normalized := Normalize(items);
    DocUnitsKeepNodes(normalized, contents);
    units := normalized;
    chunks, portions := ChunkDocument(b, title, DocUnits(normalized, contents));
  }
}
