/** Reading and digesting the staged graph: one sealed set of records per
    file, kept in memory while the records to write fit a budget. */
module GraphStaging {
  import opened Wrappers
  import opened Sorting
  import opened StateDocument
  import opened Records
  import opened CopyForward
  import opened Publication

  /** Most records kept in memory between digesting the graph and writing it. */
  const STAGE_RETAIN_RECORDS: nat := 50000

  /** The content of edge or link records by relationship id. */
  type Rows = map<string, string>

  /** One file's sealed graph records. Sealing orders them by id, so the digest
      depends on the records and not on their order; digests are injective, so
      the digest of a sealed file is the file itself. */
  datatype FileGraph = FileGraph(edges: Rows, links: Rows)
  {
    function Count(): nat
    {
      |edges| + |links|
    }
  }

  /** What a pass over the staging store sees: edges by file in the store's
      order, the build's files, and links by the file of their document. */
  datatype StageSource = StageSource(
    edges: map<FileId, Rows>, edgeOrder: seq<FileId>, paths: set<FileId>,
    links: map<FileId, Rows>, linkOrder: seq<FileId>)
  {
    ghost predicate Valid()
    {
      && Distinct(edgeOrder) && Elements(edgeOrder) == edges.Keys
      && Distinct(linkOrder) && Elements(linkOrder) == links.Keys
    }

    /** The records of `f`; edges of a file the build does not list are dropped. */
    function GraphOf(f: FileId): FileGraph
    {
      FileGraph(if f in paths && f in edges then edges[f] else map[], if f in links then links[f] else map[])
    }

    /** The whole staged graph: the files that have records to publish. */
    function Graph(): map<FileId, FileGraph>
    {
      map f | f in (edges.Keys * paths) + links.Keys :: GraphOf(f)
    }
  }

  /** `all` without the files that are not in `order`. */
  function Part<V>(all: map<FileId, V>, order: seq<FileId>): map<FileId, V>
  {
    map f | f in all && f in order :: all[f]
  }

  /** `order` lists, without repetition, files of `all`: those in `files`. */
  ghost predicate Visited<V>(all: map<FileId, V>, files: set<FileId>, order: seq<FileId>)
  {
    Distinct(order) && Elements(order) == files && files <= all.Keys
  }

  lemma VisitOneMore<V>(all: map<FileId, V>, files: set<FileId>, order: seq<FileId>, f: FileId)
    requires Visited(all, files, order) && f in all && f !in files
    ensures Visited(all, files + {f}, order + [f])
    ensures Part(all, order + [f]) == Part(all, order)[f := all[f]]
  {
    assert f !in order;
    assert Elements(order + [f]) == Elements(order) + {f};
  }

  lemma OneMore(order: seq<FileId>, i: nat)
    requires i < |order| && Distinct(order)
    ensures order[i] !in Elements(order[..i])
    ensures Elements(order[..i + 1]) == Elements(order[..i]) + {order[i]}
  {
    assert order[..i + 1] == order[..i] + [order[i]];
  }

  /** The files with edges, in the store's order. */
  method EdgeFiles(src: StageSource) returns (files: map<FileId, FileGraph>, order: seq<FileId>)
    requires src.Valid()
    ensures Visited(src.Graph(), src.edges.Keys * src.paths, order) && files == Part(src.Graph(), order)
  {
    ghost var all := src.Graph();
    files, order := map[], [];
    for i := 0 to |src.edgeOrder|
      invariant Visited(all, Elements(src.edgeOrder[..i]) * src.paths, order)
      invariant files == Part(all, order)
    {
      var f := src.edgeOrder[i];
      OneMore(src.edgeOrder, i);
      assert f in Elements(src.edgeOrder);
      if f in src.paths {
        VisitOneMore(all, Elements(src.edgeOrder[..i]) * src.paths, order, f);
        assert Elements(src.edgeOrder[..i + 1]) * src.paths == Elements(src.edgeOrder[..i]) * src.paths + {f};
        files := files[f := FileGraph(src.edges[f], if f in src.links then src.links[f] else map[])];
        order := order + [f];
      } else {
        assert Elements(src.edgeOrder[..i + 1]) * src.paths == Elements(src.edgeOrder[..i]) * src.paths;
      }
    }
    assert src.edgeOrder[..|src.edgeOrder|] == src.edgeOrder;
  }

  /** The files that only have links. */
  method LinkFiles(src: StageSource, seen: set<FileId>, withEdges: map<FileId, FileGraph>, edgeOrder: seq<FileId>)
    returns (files: map<FileId, FileGraph>, order: seq<FileId>)
    requires src.Valid() && seen == src.edges.Keys * src.paths
    requires Visited(src.Graph(), seen, edgeOrder) && withEdges == Part(src.Graph(), edgeOrder)
    ensures Visited(src.Graph(), seen + src.links.Keys, order) && files == Part(src.Graph(), order)
  {
    ghost var all := src.Graph();
    files, order := withEdges, edgeOrder;
    for i := 0 to |src.linkOrder|
      invariant Visited(all, seen + Elements(src.linkOrder[..i]), order)
      invariant files == Part(all, order)
    {
      var f := src.linkOrder[i];
      OneMore(src.linkOrder, i);
      assert f in Elements(src.linkOrder);
      if f !in seen {
        VisitOneMore(all, seen + Elements(src.linkOrder[..i]), order, f);
        assert seen + Elements(src.linkOrder[..i + 1]) == seen + Elements(src.linkOrder[..i]) + {f};
        files, order := files[f := FileGraph(map[], src.links[f])], order + [f];
      } else {
        assert seen + Elements(src.linkOrder[..i + 1]) == seen + Elements(src.linkOrder[..i]);
      }
    }
    assert src.linkOrder[..|src.linkOrder|] == src.linkOrder;
  }

  /** Every staged file's sealed records: files with edges first, then the
      files that only have links. */
  method EachFile(src: StageSource) returns (files: map<FileId, FileGraph>, order: seq<FileId>)
    requires src.Valid()
    ensures files == src.Graph() && Distinct(order) && Elements(order) == files.Keys
  {
    files, order := EdgeFiles(src);
    assert forall f :: f in Elements(order) <==> f in order;
    assert files.Keys == src.edges.Keys * src.paths;
    files, order := LinkFiles(src, files.Keys, files, order);
    assert forall f :: f in Elements(order) <==> f in order;
  }

  // ---- what is copied and what is written --------------------------------------------

  /** What is recorded with a generation: its overall digest (the base build
      and every file's digest), the file digests, and the derivation's keys. */
  datatype Manifest = Manifest(
    digest: (BuildId, map<FileId, FileGraph>), files: map<FileId, FileGraph>, keys: Option<string>)

  datatype StagedGraph = StagedGraph(
    files: map<FileId, FileGraph>,
    digest: (BuildId, map<FileId, FileGraph>),
    retained: Option<map<FileId, FileGraph>>)

  /** The digests recorded with the current generation. */
  function RecordedFiles(current: GraphRecord<Manifest>): map<FileId, FileGraph>
  {
    if current.manifest.Some? then current.manifest.value.files else map[]
  }

  /** A file's records equal the current generation's, so they are copied. */
  predicate CopiesForward(current: GraphRecord<Manifest>, f: FileId, g: FileGraph)
  {
    current.generation.Some? && f in RecordedFiles(current) && RecordedFiles(current)[f] == g
  }

  /** The current generation is settled and recorded exactly the staged digests. */
  predicate RecordsIdentical(current: GraphRecord<Manifest>, staged: StagedGraph)
  {
    && current.generation.Some? && current.Settled()
    && |RecordedFiles(current)| == |staged.files|
    && (forall f :: f in staged.files ==> f in RecordedFiles(current) && RecordedFiles(current)[f] == staged.files[f])
  }

  /** Comparing sizes and staged files compares the two graphs. */
  lemma IdenticalRecords(current: GraphRecord<Manifest>, staged: StagedGraph)
    ensures RecordsIdentical(current, staged)
      <==> current.generation.Some? && current.Settled() && RecordedFiles(current) == staged.files
  {
    var recorded := RecordedFiles(current);
    if RecordsIdentical(current, staged) {
      assert staged.files.Keys <= recorded.Keys;
      SubsetOfSameSize(staged.files.Keys, recorded.Keys);
    }
  }

  lemma SubsetOfSameSize<T>(a: set<T>, b: set<T>)
    requires a <= b && |a| == |b|
    ensures a == b
  {
    assert b == a + (b - a);
    assert |b - a| == 0;
  }

  /** The files to write. */
  function ToWrite(current: GraphRecord<Manifest>, files: map<FileId, FileGraph>): map<FileId, FileGraph>
  {
    map f | f in files && !CopiesForward(current, f, files[f]) :: files[f]
  }

  /** How many records the files to write have. */
  function WrittenRecords(current: GraphRecord<Manifest>, files: map<FileId, FileGraph>, order: seq<FileId>): nat
    requires forall f :: f in order ==> f in files
  {
    if order == [] then 0
    else
      var last := order[|order| - 1];
      WrittenRecords(current, files, order[..|order| - 1]) +
      if CopiesForward(current, last, files[last]) then 0 else |files[last].edges| + |files[last].links|
  }

  lemma PartOneMore<V>(files: map<FileId, V>, order: seq<FileId>, i: nat)
    requires i < |order| && Distinct(order) && Elements(order) == files.Keys && order[i] in files
    ensures order[i] !in Part(files, order[..i])
    ensures Part(files, order[..i + 1]) == Part(files, order[..i])[order[i] := files[order[i]]]
  {
    assert order[..i + 1] == order[..i] + [order[i]];
  }

  lemma ToWriteOneMore(current: GraphRecord<Manifest>, files: map<FileId, FileGraph>, f: FileId, g: FileGraph)
    requires f !in files
    ensures ToWrite(current, files[f := g])
      == if CopiesForward(current, f, g) then ToWrite(current, files) else ToWrite(current, files)[f := g]
  {
  }

  lemma OneMoreStaged(current: GraphRecord<Manifest>, files: map<FileId, FileGraph>, order: seq<FileId>, i: nat)
    requires i < |order| && Distinct(order) && Elements(order) == files.Keys && order[i] in files
    requires forall f :: f in order ==> f in files
    ensures Part(files, order[..i + 1]) == Part(files, order[..i])[order[i] := files[order[i]]]
    ensures ToWrite(current, Part(files, order[..i + 1]))
      == if CopiesForward(current, order[i], files[order[i]]) then ToWrite(current, Part(files, order[..i]))
         else ToWrite(current, Part(files, order[..i]))[order[i] := files[order[i]]]
    ensures WrittenRecords(current, files, order[..i + 1])
      == WrittenRecords(current, files, order[..i]) +
         if CopiesForward(current, order[i], files[order[i]]) then 0 else files[order[i]].Count()
  {
    assert order[..i + 1][..i] == order[..i];
    PartOneMore(files, order, i);
    ToWriteOneMore(current, Part(files, order[..i]), order[i], files[order[i]]);
  }

  /** Collects the visited files and, while they fit `budget`, the records to write. */
  method DigestFiles(all: map<FileId, FileGraph>, order: seq<FileId>, current: GraphRecord<Manifest>, budget: nat)
    returns (files: map<FileId, FileGraph>, retained: Option<map<FileId, FileGraph>>)
    requires Distinct(order) && Elements(order) == all.Keys && forall f :: f in order ==> f in all
    ensures files == Part(all, order)
    ensures retained.Some? <==> WrittenRecords(current, all, order) <= budget
    ensures retained.Some? ==> retained.value == ToWrite(current, files)
  {
    files, retained := map[], Some(map[]);
    var kept := 0;
    for i := 0 to |order|
      invariant files == Part(all, order[..i]) && kept == WrittenRecords(current, all, order[..i])
      invariant retained.Some? <==> kept <= budget
      invariant retained.Some? ==> retained.value == ToWrite(current, files)
    {
      var f, g := order[i], all[order[i]];
      OneMoreStaged(current, all, order, i);
      files := files[f := g];
      if !CopiesForward(current, f, g) {
        kept := kept + g.Count();
        if kept > budget {
          retained := None;
        }
        if retained.Some? {
          retained := Some(retained.value[f := g]);
        }
      }
    }
    assert order[..|order|] == order;
  }

  /** Digests the staged graph, keeping the records to write while they fit
      `budget`: what is kept is exactly what will be written. */
  method StageWithin(src: StageSource, base: BuildId, current: GraphRecord<Manifest>, budget: nat)
    returns (staged: StagedGraph, ghost order: seq<FileId>)
    requires src.Valid()
    ensures staged.files == src.Graph() && staged.digest == (base, staged.files)
    ensures Distinct(order) && Elements(order) == staged.files.Keys && forall f :: f in order ==> f in staged.files
    ensures staged.retained.Some? <==> WrittenRecords(current, staged.files, order) <= budget
    ensures staged.retained.Some? ==> staged.retained.value == ToWrite(current, staged.files)
  {
    var all, pass := EachFile(src);
    assert forall f :: f in pass <==> f in Elements(pass);
    var files, retained := DigestFiles(all, pass, current, budget);
    assert Part(all, pass) == all;
    staged, order := StagedGraph(files, (base, files), retained), pass;
  }

  // ---- the records of a graph ------------------------------------------------------------

  /** The records of one file; links are written after edges. */
  function GraphDocs(g: FileGraph): map<Key, Body>
  {
    map id | id in g.edges.Keys + g.links.Keys ::
      (Relationships, id) := PartBody(if id in g.links then g.links[id] else g.edges[id])
  }

  /** The records of a whole graph. */
  function GraphContents(files: map<FileId, FileGraph>): Contents<Body>
  {
    map f | f in files :: GraphDocs(files[f])
  }
}
