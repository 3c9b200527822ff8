/** Publishing the staged graph as a new generation of the server: unchanged
    files' records are copied forward, the others are written, and one fenced
    write makes the generation visible. */
module GraphPublication {
  import opened Wrappers
  import opened Sorting
  import opened StateDocument
  import opened Records
  import opened SerialisedRuns
  import opened CopyForward
  import opened Publication
  import opened Backend
  import opened GraphStaging

  type Server = ServerBackend<Manifest>

  /** Where a graph publication fails, and how long its writes take. */
  datatype GraphFaults = GraphFaults(copyBatches: Option<nat>, files: Option<nat>, elapsed: nat)

  datatype GraphReport = GraphReport(generation: GenerationId, published: bool, rebound: bool)

  /** Record ids are injective across the files of a graph. */
  ghost predicate GraphOwned(files: map<FileId, FileGraph>)
  {
    Owned(GRAPH_KINDS, GraphContents(files))
  }

  /** `g` shows exactly the staged graph, file by file, each record once. */
  ghost predicate ShowsGraph(records: Index<Body>, g: GenerationId, files: map<FileId, FileGraph>)
  {
    Holds(GRAPH_KINDS, records, g, GraphContents(files))
  }

  /** The current generation recorded exactly the records of `f` that are staged. */
  ghost predicate RecordedAsStaged(current: GraphRecord<Manifest>, files: map<FileId, FileGraph>, f: FileId)
  {
    match current.manifest
    case Some(m) => f in m.files && f in files && m.files[f] == files[f]
    case None => false
  }

  /** The files recorded with the current generation are the staged ones. */
  ghost predicate AllRecordedAsStaged(current: GraphRecord<Manifest>, files: map<FileId, FileGraph>)
  {
    match current.manifest
    case Some(m) => m.files == files
    case None => files == map[]
  }

  /** The current generation still shows the files it recorded as they are staged. */
  ghost predicate CopiedFilesIntact(
    records: Index<Body>, current: GraphRecord<Manifest>, files: map<FileId, FileGraph>)
  {
    forall f :: current.generation.Some? && RecordedAsStaged(current, files, f) ==>
      FileHolds(GRAPH_KINDS, records, current.generation.value, f, GraphDocs(files[f]))
  }

  /** Showing a staged graph, relationship by relationship: those of the edges
      and links of its files and no others, a link taking precedence. */
  lemma ShownRelationships(
    records: Index<Body>, g: GenerationId, files: map<FileId, FileGraph>, f: FileId, key: Key, text: string)
    requires ShowsGraph(records, g, files)
    ensures ShowsRecord(GRAPH_KINDS, records, g, f, key, PartBody(text)) <==>
      && f in files && key.0 == Relationships
      && (if key.1 in files[f].links then text == files[f].links[key.1]
          else key.1 in files[f].edges && text == files[f].edges[key.1])
  {
    HoldingShowsWanted(GRAPH_KINDS, records, g, f, Wanted(GraphContents(files), f), key, PartBody(text));
  }

  // ---- writing a generation --------------------------------------------------------

  /** The staged files split by whether their records are copied forward. */
  method Partition(current: GraphRecord<Manifest>, files: map<FileId, FileGraph>)
    returns (copy: seq<FileId>, write: seq<FileId>)
    ensures forall f :: f in copy <==> f in files && CopiesForward(current, f, files[f])
    ensures forall f :: f in write <==> f in files && !CopiesForward(current, f, files[f])
  {
    copy, write := [], [];
    var rest := files.Keys;
    while rest != {}
      invariant rest <= files.Keys
      invariant forall f :: f in copy <==> f in files && f !in rest && CopiesForward(current, f, files[f])
      invariant forall f :: f in write <==> f in files && f !in rest && !CopiesForward(current, f, files[f])
      decreases |rest|
    {
      var f :| f in rest;
      if CopiesForward(current, f, files[f]) {
        copy := copy + [f];
      } else {
        write := write + [f];
      }
      rest := rest - {f};
    }
  }

  method PutFile(server: Server, g: GenerationId, f: FileId, graph: FileGraph)
    requires server.Logged() && g in server.generations
    modifies server`records, server`worlds, server`events
    ensures server.Continues(old(server.worlds), old(server.events))
    ensures server.records == Put(old(server.records), g, Docs(f, GraphDocs(graph)))
  {
    server.WriteGraphRecords(g, Docs(f, GraphDocs(graph)));
  }

  /** Writes from the retained records; a file that is not retained is skipped. */
  method WriteRetained(
    server: Server, g: GenerationId, retained: map<FileId, FileGraph>, write: seq<FileId>, failAfter: Option<nat>)
    returns (r: Result<(), Conflict>)
    requires server.Logged() && g in server.generations
    modifies server`records, server`worlds, server`events
    ensures server.Continues(old(server.worlds), old(server.events))
    ensures r.Ok? ==> server.records == WriteFound(old(server.records), g, GraphContents(retained), write)
    ensures failAfter.None? ==> r.Ok?
  {
    for i := 0 to |write|
      invariant server.Continues(old(server.worlds), old(server.events))
      invariant server.records == WriteFound(old(server.records), g, GraphContents(retained), write[..i])
    {
      if failAfter == Some(i) {
        return Err(Unreachable);
      }
      OneMoreFound(old(server.records), g, GraphContents(retained), write, i);
      if write[i] in retained {
        ghost var ws, es := server.worlds, server.events;
        PutFile(server, g, write[i], retained[write[i]]);
        server.ContinuesOn(old(server.worlds), old(server.events), ws, es);
      }
    }
    assert write[..|write|] == write;
    r := Ok(());
  }

  lemma OneMoreWritten(
    records: Index<Body>, g: GenerationId, files: map<FileId, FileGraph>, written: seq<FileId>, f: FileId)
    requires f in files && forall h :: h in written ==> h in files
    ensures WriteFiles(records, g, GraphContents(files), written + [f])
      == Put(WriteFiles(records, g, GraphContents(files), written), g, Docs(f, GraphDocs(files[f])))
  {
    assert (written + [f])[..|written|] == written;
  }

  /** Writes the wanted ones of the visited files; a file whose digest changed
      since the first pass is refused. */
  method WriteWanted(
    server: Server, g: GenerationId, files: map<FileId, FileGraph>, all: map<FileId, FileGraph>, pass: seq<FileId>,
    wanted: set<FileId>, failAfter: Option<nat>) returns (r: Result<(), Conflict>, written: seq<FileId>)
    requires server.Logged() && g in server.generations && wanted <= files.Keys
    requires forall f :: f in pass ==> f in all
    modifies server`records, server`worlds, server`events
    ensures server.Continues(old(server.worlds), old(server.events))
    ensures forall f :: f in written ==> f in files
    ensures r.Ok? ==> server.records == WriteFiles(old(server.records), g, GraphContents(files), written)
    ensures r.Ok? ==> forall f :: f in written <==> f in wanted && f in pass
    ensures r.Ok? ==> forall f :: f in written ==> files[f] == all[f]
    ensures failAfter.None? && (forall f :: f in wanted && f in all ==> files[f] == all[f]) ==> r.Ok?
  {
    written := [];
    for i := 0 to |pass|
      invariant server.Continues(old(server.worlds), old(server.events))
      invariant forall f :: f in written <==> f in wanted && f in pass[..i]
      invariant forall f :: f in written ==> files[f] == all[f]
      invariant server.records == WriteFiles(old(server.records), g, GraphContents(files), written)
    {
      var f := pass[i];
      assert pass[..i + 1] == pass[..i] + [f];
      if f in wanted {
        if files[f] != all[f] {
          return Err(Changed), written;
        }
        if failAfter == Some(|written|) {
          return Err(Unreachable), written;
        }
        ghost var ws, es := server.worlds, server.events;
        OneMoreWritten(old(server.records), g, files, written, f);
        PutFile(server, g, f, all[f]);
        server.ContinuesOn(old(server.worlds), old(server.events), ws, es);
        written := written + [f];
      }
    }
    assert pass[..|pass|] == pass;
    r := Ok(());
  }

  /** Streams the staging store again and writes the wanted files. */
  method WriteStreamed(
    server: Server, g: GenerationId, files: map<FileId, FileGraph>, second: StageSource, wanted: set<FileId>,
    failAfter: Option<nat>) returns (r: Result<(), Conflict>, written: seq<FileId>)
    requires server.Logged() && g in server.generations && second.Valid() && wanted <= files.Keys
    modifies server`records, server`worlds, server`events
    ensures server.Continues(old(server.worlds), old(server.events))
    ensures forall f :: f in written ==> f in files
    ensures r.Ok? ==> server.records == WriteFiles(old(server.records), g, GraphContents(files), written)
    ensures r.Ok? ==> forall f :: f in written <==> f in wanted && f in second.Graph()
    ensures r.Ok? ==> forall f :: f in written ==> files[f] == second.Graph()[f]
    ensures failAfter.None? && (forall f :: f in wanted && f in second.Graph() ==> files[f] == second.Graph()[f])
      ==> r.Ok?
  {
    var all, pass := EachFile(second);
    assert forall f :: f in pass <==> f in Elements(pass);
    r, written := WriteWanted(server, g, files, all, pass, wanted, failAfter);
  }

  lemma CopiedEverything(
    records: Index<Body>, current: GraphRecord<Manifest>, g: GenerationId, files: map<FileId, FileGraph>,
    copy: seq<FileId>, written: seq<FileId>, keep: set<GenerationId>, from: GenerationId)
    requires IsUnused(records, g) && GraphOwned(files)
    requires forall f :: f in copy <==> f in files && CopiesForward(current, f, files[f])
    requires forall f :: f in written <==> f in files && !CopiesForward(current, f, files[f])
    requires current.generation.Some? ==> from == current.generation.value
    ensures ShowsGraph(Incremental(GRAPH_KINDS, records, from, g, GraphContents(files), Elements(copy), written, keep),
                       g, files)
      <==> CopiedFilesIntact(records, current, files)
  {
    var contents := GraphContents(files);
    IncrementalHoldsIff(GRAPH_KINDS, records, from, g, contents, Elements(copy), written, keep);
    forall f | f in files
      ensures Wanted(contents, f) == GraphDocs(files[f])
    {
    }
  }

  lemma NothingCopied(records: Index<Body>, from: GenerationId, g: GenerationId, keep: set<GenerationId>)
    ensures Attach(records, GRAPH_KINDS, from, g, Elements<FileId>([]), keep) == records
  {
  }

  /** Copies the unchanged files from the current generation, keeping the
      generations a reader may be pinned to. */
  method CopyUnchanged(
    server: Server, current: GraphRecord<Manifest>, g: GenerationId, copy: seq<FileId>, failAfter: Option<nat>)
    returns (r: Result<(), Conflict>, ghost from: GenerationId, ghost keep: set<GenerationId>)
    requires server.Logged() && g in server.generations
    requires current.generation.Some? ==> current.generation.value in server.generations
    requires copy != [] ==> current.generation.Some?
    modifies server`records, server`worlds, server`events
    ensures server.Continues(old(server.worlds), old(server.events))
    ensures current.generation.Some? ==> from == current.generation.value
    ensures r.Ok? ==> server.records == Attach(old(server.records), GRAPH_KINDS, from, g, Elements(copy), keep)
    ensures failAfter.None? ==> r.Ok?
  {
    r := Ok(());
    from, keep := if current.generation.Some? then current.generation.value else g, {};
    NothingCopied(server.records, from, g, keep);
    if current.generation.Some? && copy != [] {
      var kept := {current.generation.value} + RetiredIds(current.retired);
      keep := kept;
      r := server.CopyGraphRecords(current.generation.value, g, copy, kept, failAfter);
    }
  }

  /** Writes the pending generation `g`. It shows the staged graph file by file
      exactly when the files copied from the current generation were intact
      there, whether the others were retained or are streamed a second time. */
  method WriteGraph(
    server: Server, g: GenerationId, staged: StagedGraph, second: StageSource, current: GraphRecord<Manifest>,
    faults: GraphFaults) returns (r: Result<(), Conflict>)
    requires server.Logged() && g in server.generations && second.Valid()
    requires current.generation.Some? ==> current.generation.value in server.generations
    requires IsUnused(server.records, g) && GraphOwned(staged.files)
    requires staged.retained.Some? ==> staged.retained.value == ToWrite(current, staged.files)
    modifies server`records, server`worlds, server`events
    ensures server.Continues(old(server.worlds), old(server.events))
    ensures r.Ok? && (staged.retained.Some? || second.Graph() == staged.files) ==>
      (ShowsGraph(server.records, g, staged.files) <==>
       CopiedFilesIntact(old(server.records), current, staged.files))
    ensures faults.copyBatches.None? && faults.files.None? && second.Graph() == staged.files ==> r.Ok?
  {
    var copy, write := Partition(current, staged.files);
    assert copy != [] ==> copy[0] in copy;
    ghost var from, keep;
    r, from, keep := CopyUnchanged(server, current, g, copy, faults.copyBatches);
    if r.Err? {
      return;
    }
    ghost var ws, es := server.worlds, server.events;
    var written := write;
    if staged.retained.Some? {
      AllFound(server.records, g, GraphContents(staged.retained.value), GraphContents(staged.files), write);
      r := WriteRetained(server, g, staged.retained.value, write, faults.files);
    } else {
      r, written := WriteStreamed(server, g, staged.files, second, Elements(write), faults.files);
    }
    server.ContinuesOn(old(server.worlds), old(server.events), ws, es);
    if r.Ok? && (staged.retained.Some? || second.Graph() == staged.files) {
      CopiedEverything(old(server.records), current, g, staged.files, copy, written, keep, from);
    }
  }

  // ---- making it visible -------------------------------------------------------------

  /** Every generation the document names was opened, and the pending one is not the current one. */
  ghost predicate GenerationsKnown(graph: GraphRecord<Manifest>, generations: set<GenerationId>)
  {
    && (graph.generation.Some? ==> graph.generation.value in generations)
    && (graph.pending.Some? ==> graph.pending.value in generations && graph.pending != graph.generation)
    && RetiredIds(graph.retired) <= generations
  }

  /** The retired generations, with the one replaced now, whose grace is over. */
  function Expired(graph: GraphRecord<Manifest>, g: GenerationId, now: Time, grace: nat): seq<Retired>
  {
    var all := if graph.generation.Some? && graph.generation.value != g
               then graph.retired + [Retired(graph.generation.value, now)] else graph.retired;
    Filter(all, (e: Retired) => !InGrace(e.at, now, grace))
  }

  /** `e` was retired before `g` took its place, or was replaced by it now. */
  ghost predicate UpForRetirement(graph: GraphRecord<Manifest>, g: GenerationId, now: Time, e: Retired)
  {
    e in graph.retired || (e.at == now && graph.generation == Some(e.id) && e.id != g)
  }

  /** Each generation up for retirement is named expired or stays retired, and
      that is a matter of the time since it was replaced. */
  lemma ExpiredWhenGraceIsOver(graph: GraphRecord<Manifest>, g: GenerationId, now: Time, grace: nat, e: Retired)
    ensures e in Expired(graph, g, now, grace) <==>
      UpForRetirement(graph, g, now, e) && !(grace > 0 && now < e.at + grace)
    ensures e in Retire(graph.retired, graph.generation, g, now, grace) <==>
      UpForRetirement(graph, g, now, e) && grace > 0 && now < e.at + grace
  {
    KeptUntilGraceEnds(graph.retired, graph.generation, g, now, grace, e);
  }

  lemma OthersAreUp(graph: GraphRecord<Manifest>, g: GenerationId, now: Time, generations: set<GenerationId>)
    requires GenerationsKnown(graph, generations) && g !in generations
    ensures forall e :: UpForRetirement(graph, g, now, e) ==> e.id in generations && e.id != g
  {
    forall e | e in graph.retired
      ensures e.id in RetiredIds(graph.retired)
    {
    }
  }

  /** The fenced write that makes the pending generation the visible one. */
  method PromoteGraph(
    server: Server, lease: Option<Lease>, g: GenerationId, base: BuildId, inputDigest: Option<string>,
    manifest: Manifest)
    returns (r: Result<seq<Retired>, Conflict>)
    requires server.Valid()
    modifies server`doc, server`seqNo, server`worlds, server`events
    ensures server.Valid() && server.Continues(old(server.worlds), old(server.events))
    ensures server.doc.active == old(server.doc.active)
    ensures r.Ok? ==> old(server.doc.graph.pending) == Some(g) && server.doc.active == Some(base)
    ensures r.Ok? ==> server.doc.graph.VisibleGeneration(server.doc.active) == Some(g)
    ensures r.Ok? ==> server.doc.graph.pending == None && server.doc.graph.manifest == Some(manifest)
    ensures r.Ok? ==> server.doc.graph.generation == Some(g)
    ensures r.Ok? ==> forall e ::
      (e in r.value <==>
       UpForRetirement(old(server.doc.graph), g, server.now, e) &&
       !(server.grace > 0 && server.now < e.at + server.grace)) &&
      (e in server.doc.graph.retired <==>
       UpForRetirement(old(server.doc.graph), g, server.now, e) &&
       server.grace > 0 && server.now < e.at + server.grace)
    ensures r.Err? ==> server.doc == old(server.doc)
  {
    var expired := Expired(server.doc.graph, g, server.now, server.grace);
    var done := server.PatchAndLog(lease, Op.Promote(g, base, inputDigest, manifest, server.grace));
    r := if done.Ok? then Ok(expired) else Err(done.error);
    forall e {
      ExpiredWhenGraceIsOver(old(server.doc.graph), g, server.now, server.grace, e);
    }
  }

  /** Of the generations listed before `g` none shows a record in `after`, and
      each other one shows what it showed in `before`. */
  ghost predicate DroppedFrom(before: Index<Body>, after: Index<Body>, dropped: seq<Retired>)
  {
    && (forall e :: e in dropped ==> ShowsNothing(after, e.id))
    && (forall h: GenerationId :: (forall e :: e in dropped ==> e.id != h) ==> View(after, h) == View(before, h))
  }

  lemma DroppedOneMore(
    before: Index<Body>, between: Index<Body>, after: Index<Body>, dropped: seq<Retired>, next: Retired)
    requires DroppedFrom(before, between, dropped) && after == Detach(between, next.id)
    ensures DroppedFrom(before, after, dropped + [next])
  {
    forall h: GenerationId | forall e :: e in dropped + [next] ==> e.id != h
      ensures View(after, h) == View(before, h)
    {
      assert next in dropped + [next];
      assert forall e :: e in dropped ==> e in dropped + [next];
      DetachKeepsOtherViews(between, next.id, h);
    }
  }

  /** Deletes the records of exactly the expired generations. */
  method DropExpired(server: Server, expired: seq<Retired>)
    requires server.Valid() && forall e :: e in expired ==> e.id in server.generations
    modifies server`records, server`worlds, server`events
    ensures server.Continues(old(server.worlds), old(server.events))
    ensures DroppedFrom(old(server.records), server.records, expired)
  {
    for i := 0 to |expired|
      invariant server.Continues(old(server.worlds), old(server.events))
      invariant DroppedFrom(old(server.records), server.records, expired[..i])
    {
      ghost var ws, es, before := server.worlds, server.events, server.records;
      server.DropGeneration(expired[i].id);
      DroppedOneMore(old(server.records), before, server.records, expired[..i], expired[i]);
      assert expired[..i + 1] == expired[..i] + [expired[i]];
      server.ContinuesOn(old(server.worlds), old(server.events), ws, es);
    }
    assert expired[..|expired|] == expired;
  }

  /** Gives up the pending generation `g` and records the failure. */
  method FailGraph(server: Server, lease: Option<Lease>, g: GenerationId)
    requires server.Valid() && g in server.generations
    modifies server`doc, server`seqNo, server`records, server`worlds, server`events
    ensures server.Valid() && server.Continues(old(server.worlds), old(server.events))
    ensures server.doc.active == old(server.doc.active)
    ensures server.doc.graph.generation == old(server.doc.graph.generation)
    ensures server.doc.graph.retired == old(server.doc.graph.retired)
    ensures server.doc.graph.pending in {old(server.doc.graph.pending), None}
  {
    ghost var i := |server.worlds| - 1;
    server.DropGeneration(g);
    server.GraphStepsKeepBase(i);
    ghost var ws, es := server.worlds, server.events;
    var ignored := server.PatchAndLog(lease, Op.FailGraph(g));
    server.ContinuesOn(old(server.worlds), old(server.events), ws, es);
  }

  /** The graph record pointed at `base`: the same records under a new manifest. */
  function Repointed(
    graph: GraphRecord<Manifest>, base: BuildId, inputDigest: Option<string>, manifest: Manifest): GraphRecord<Manifest>
  {
    graph.(state := GraphReady, base := Some(base), inputDigest := inputDigest, manifest := Some(manifest))
  }

  /** Points the current generation, whose recorded digests are the staged
      ones, at the new base, without writing any record. */
  method RepointGraph(
    server: Server, lease: Option<Lease>, g: GenerationId, base: BuildId, inputDigest: Option<string>,
    manifest: Manifest)
    returns (r: Result<bool, Conflict>)
    requires server.Valid()
    modifies server`doc, server`seqNo, server`worlds, server`events
    ensures server.Valid() && server.Continues(old(server.worlds), old(server.events))
    ensures server.doc.active == old(server.doc.active)
    ensures r.Ok? ==> server.doc.active == Some(base)
    ensures r.Ok? && r.value ==> server.doc.graph.VisibleGeneration(server.doc.active) == Some(g)
    ensures r.Ok? && r.value ==> IsSettledOn(old(server.doc.graph), g)
    ensures r == Ok(true) ==> server.doc.graph == Repointed(old(server.doc.graph), base, inputDigest, manifest)
    ensures r.Err? || !r.value ==> server.doc == old(server.doc)
    ensures r == Ok(false) ==> !IsSettledOn(server.doc.graph, g)
  {
    var matches := server.doc.graph.generation == Some(g) && server.doc.graph.Settled();
    var done := server.PatchAndLog(lease, Op.Repoint(g, base, inputDigest, manifest));
    r := if done.Ok? then Ok(matches) else Err(done.error);
  }

  /** Points the generation derived from identical inputs at the new base. */
  method RebindGraph(server: Server, lease: Option<Lease>, g: GenerationId, base: BuildId, inputDigest: string)
    returns (r: Result<bool, Conflict>)
    requires server.Valid()
    modifies server`doc, server`seqNo, server`worlds, server`events
    ensures server.Valid() && server.Continues(old(server.worlds), old(server.events))
    ensures r.Ok? ==> old(server.doc.active) == Some(base)
    ensures r == Ok(true) <==>
            CheckLease(old(server.doc), lease, server.now).Ok? && old(server.doc.active) == Some(base) &&
            IsSettledOn(old(server.doc.graph), g) && old(server.doc.graph.inputDigest) == Some(inputDigest)
    ensures r == Ok(true) ==> server.doc.graph.VisibleGeneration(server.doc.active) == Some(g)
    ensures r != Ok(true) ==> server.doc == old(server.doc)
  {
    var graph := server.doc.graph;
    var matches := graph.generation == Some(g) && graph.inputDigest == Some(inputDigest) && graph.Settled();
    var done := server.PatchAndLog(lease, Op.Rebind(g, base, inputDigest));
    r := if done.Ok? then Ok(matches) else Err(done.error);
  }

  // ---- a whole publication -------------------------------------------------------------

  /** Deletes the leftovers of an abandoned pending generation and marks `g` pending. */
  method MarkPending(server: Server, lease: Option<Lease>, g: GenerationId) returns (r: Result<(), Conflict>)
    requires server.Valid() && g !in server.begun && g !in server.generations
    requires GenerationsKnown(server.doc.graph, server.generations)
    modifies server`doc, server`seqNo, server`records, server`generations, server`worlds, server`events
    ensures server.Valid() && server.Continues(old(server.worlds), old(server.events))
    ensures server.doc.active == old(server.doc.active) && server.generations == old(server.generations) + {g}
    ensures r.Ok? ==> server.doc.graph == old(server.doc.graph).(state := GraphBuilding, pending := Some(g))
    ensures r.Err? ==> server.doc == old(server.doc)
    ensures IsUnused(server.records, g)
    ensures server.records == if old(server.doc.graph.pending).Some?
                              then Detach(old(server.records), old(server.doc.graph.pending.value))
                              else old(server.records)
  {
    ghost var ws, es := server.worlds, server.events;
    ghost var i := |server.worlds| - 1;
    server.FreshGenerationIsUnused(g);
    if server.doc.graph.pending.Some? {
      server.DropGeneration(server.doc.graph.pending.value);
    }
    server.GraphStepsKeepBase(i);
    ghost var wt, et := server.worlds, server.events;
    server.OpenGeneration(g);
    server.ContinuesOn(ws, es, wt, et);
    ghost var wu, eu := server.worlds, server.events;
    r := server.PatchAndLog(lease, Op.MarkPending(g));
    server.ContinuesOn(ws, es, wu, eu);
  }

  lemma KnownAfterPromotion(
    before: GraphRecord<Manifest>, g: GenerationId, now: Time, retired: seq<Retired>, generations: set<GenerationId>)
    requires GenerationsKnown(before, generations) && g in generations
    requires forall e :: e in retired ==> UpForRetirement(before, g, now, e)
    ensures RetiredIds(retired) <= generations
  {
    forall e | e in before.retired
      ensures e.id in RetiredIds(before.retired)
    {
    }
  }

  /** Once `g` has taken over from the generations of `before`, those whose grace
      is over show no record, and exactly the others are still retired. */
  ghost predicate GraceIsKept(
    before: GraphRecord<Manifest>, g: GenerationId, now: Time, grace: nat, retired: seq<Retired>,
    records: Index<Body>)
  {
    forall e ::
      && (UpForRetirement(before, g, now, e) && !(grace > 0 && now < e.at + grace) ==> ShowsNothing(records, e.id))
      && (e in retired <==> UpForRetirement(before, g, now, e) && grace > 0 && now < e.at + grace)
  }

  /** What the promotion named expired is dropped, the other generations keep their views. */
  lemma DroppedMeansGraceIsKept(
    before: GraphRecord<Manifest>, g: GenerationId, now: Time, grace: nat, retired: seq<Retired>,
    expired: seq<Retired>, written: Index<Body>, records: Index<Body>, generations: set<GenerationId>)
    requires GenerationsKnown(before, generations) && g !in generations
    requires forall e :: e in expired <==> UpForRetirement(before, g, now, e) && !(grace > 0 && now < e.at + grace)
    requires forall e :: e in retired <==> UpForRetirement(before, g, now, e) && grace > 0 && now < e.at + grace
    requires DroppedFrom(written, records, expired)
    ensures GraceIsKept(before, g, now, grace, retired, records) && View(records, g) == View(written, g)
  {
    OthersAreUp(before, g, now, generations);
  }

  /** Promotes `g` and deletes the records of the generations that expired. */
  method PromoteAndDrop(
    server: Server, lease: Option<Lease>, g: GenerationId, base: BuildId, inputDigest: Option<string>,
    manifest: Manifest)
    returns (r: Result<(), Conflict>)
    requires server.Valid() && g in server.generations
    requires GenerationsKnown(server.doc.graph.(pending := None), server.generations - {g})
    modifies server`doc, server`seqNo, server`records, server`worlds, server`events
    ensures server.Valid() && server.Continues(old(server.worlds), old(server.events))
    ensures server.doc.active == old(server.doc.active)
    ensures View(server.records, g) == View(old(server.records), g)
    ensures r.Ok? ==> GraceIsKept(old(server.doc.graph), g, server.now, server.grace, server.doc.graph.retired,
                                  server.records)
    ensures r.Ok? ==> server.doc.active == Some(base)
    ensures r.Ok? ==> server.doc.graph.VisibleGeneration(server.doc.active) == Some(g)
    ensures r.Ok? ==> server.doc.graph.pending == None && server.doc.graph.manifest == Some(manifest)
    ensures r.Ok? ==> GenerationsKnown(server.doc.graph, server.generations)
    ensures r.Err? ==> server.doc == old(server.doc)
  {
    ghost var before := server.doc.graph;
    ghost var ws, es := server.worlds, server.events;
    var promoted := PromoteGraph(server, lease, g, base, inputDigest, manifest);
    if promoted.Err? {
      return Err(promoted.error);
    }
    ghost var others := server.generations - {g};
    OthersAreUp(before.(pending := None), g, server.now, others);
    KnownAfterPromotion(before.(pending := None), g, server.now, server.doc.graph.retired, server.generations);
    ghost var i := |server.worlds| - 1;
    ghost var wt, et, written := server.worlds, server.events, server.records;
    DropExpired(server, promoted.value);
    server.ContinuesOn(ws, es, wt, et);
    server.GraphStepsKeepBase(i);
    DroppedMeansGraceIsKept(before.(pending := None), g, server.now, server.grace, server.doc.graph.retired,
                            promoted.value, written, server.records, others);
    r := Ok(());
  }

  lemma SameViewShowsGraph(one: Index<Body>, two: Index<Body>, g: GenerationId, files: map<FileId, FileGraph>)
    ensures View(one, g) == View(two, g) ==> (ShowsGraph(one, g, files) <==> ShowsGraph(two, g, files))
  {
    if View(one, g) == View(two, g) {
      if ShowsGraph(one, g, files) { SameViewHolds(GRAPH_KINDS, one, two, g, GraphContents(files)); }
      if ShowsGraph(two, g, files) { SameViewHolds(GRAPH_KINDS, two, one, g, GraphContents(files)); }
    }
  }

  /** Writes the pending generation `g` next to the active base, which takes its time. */
  method StageGeneration(
    server: Server, g: GenerationId, staged: StagedGraph, second: StageSource, current: GraphRecord<Manifest>,
    faults: GraphFaults) returns (r: Result<(), Conflict>)
    requires server.Valid() && g in server.generations && second.Valid()
    requires current.generation.Some? ==> current.generation.value in server.generations
    requires IsUnused(server.records, g) && GraphOwned(staged.files)
    requires staged.retained.Some? ==> staged.retained.value == ToWrite(current, staged.files)
    modifies server`records, server`now, server`worlds, server`events
    ensures server.Valid() && server.Continues(old(server.worlds), old(server.events))
    ensures r.Ok? && (staged.retained.Some? || second.Graph() == staged.files) ==>
      (ShowsGraph(server.records, g, staged.files) <==>
       CopiedFilesIntact(old(server.records), current, staged.files))
  {
    ghost var ws, es := server.worlds, server.events;
    ghost var i := |server.worlds| - 1;
    r := WriteGraph(server, g, staged, second, current, faults);
    ghost var wt, et := server.worlds, server.events;
    server.Wait(faults.elapsed);
    server.ContinuesOn(ws, es, wt, et);
    server.GraphStepsKeepBase(i);
  }

  /** Writes the pending generation `g`, promotes it and drops the expired ones;
      a failure gives it up and leaves the current generation in place. */
  method WriteAndPromote(
    server: Server, lease: Option<Lease>, g: GenerationId, base: BuildId, inputDigest: Option<string>,
    manifest: Manifest, staged: StagedGraph, second: StageSource, current: GraphRecord<Manifest>, faults: GraphFaults)
    returns (r: Result<(), Conflict>)
    requires server.Valid() && g in server.generations && second.Valid()
    requires GenerationsKnown(current.(pending := None), server.generations - {g})
    requires server.doc.graph == current.(state := GraphBuilding, pending := Some(g))
    requires IsUnused(server.records, g) && GraphOwned(staged.files)
    requires staged.retained.Some? ==> staged.retained.value == ToWrite(current, staged.files)
    modifies server`doc, server`seqNo, server`records, server`now, server`worlds, server`events
    ensures server.Valid() && server.Continues(old(server.worlds), old(server.events))
    ensures server.doc.active == old(server.doc.active)
    ensures GenerationsKnown(server.doc.graph, server.generations)
    ensures r.Ok? ==> server.doc.active == Some(base)
    ensures r.Ok? ==> server.doc.graph.VisibleGeneration(server.doc.active) == Some(g)
    ensures r.Ok? ==> GraceIsKept(current, g, server.now, server.grace, server.doc.graph.retired, server.records)
    ensures r.Ok? ==> server.doc.graph.pending == None && server.doc.graph.manifest == Some(manifest)
    ensures r.Ok? && (staged.retained.Some? || second.Graph() == staged.files) ==>
      (ShowsGraph(server.records, g, staged.files) <==>
       CopiedFilesIntact(old(server.records), current, staged.files))
    ensures r.Err? ==> server.doc.graph.generation == current.generation
  {
    ghost var ws, es := server.worlds, server.events;
    r := StageGeneration(server, g, staged, second, current, faults);
    ghost var wu, eu := server.worlds, server.events;
    ghost var written := server.records;
    if r.Ok? {
      r := PromoteAndDrop(server, lease, g, base, inputDigest, manifest);
      server.ContinuesOn(ws, es, wu, eu);
      SameViewShowsGraph(written, server.records, g, staged.files);
    }
    if r.Err? {
      ghost var wv, ev := server.worlds, server.events;
      FailGraph(server, lease, g);
      server.ContinuesOn(ws, es, wv, ev);
    }
  }

  lemma LeftoversAreNotCurrent(
    records: Index<Body>, current: GraphRecord<Manifest>, files: map<FileId, FileGraph>, dropped: GenerationId)
    requires current.generation != Some(dropped)
    ensures CopiedFilesIntact(Detach(records, dropped), current, files) <==> CopiedFilesIntact(records, current, files)
  {
    if current.generation.Some? {
      var g, after := current.generation.value, Detach(records, dropped);
      DetachKeepsOtherViews(records, dropped, g);
      forall f | f in files
        ensures FileHolds(GRAPH_KINDS, after, g, f, GraphDocs(files[f]))
          <==> FileHolds(GRAPH_KINDS, records, g, f, GraphDocs(files[f]))
      {
        SameViewSameFile(GRAPH_KINDS, records, after, g, f);
        SameViewSameFile(GRAPH_KINDS, after, records, g, f);
        if FileHolds(GRAPH_KINDS, records, g, f, GraphDocs(files[f])) {
          SameFileHolds(GRAPH_KINDS, records, g, after, g, f, GraphDocs(files[f]));
        }
        if FileHolds(GRAPH_KINDS, after, g, f, GraphDocs(files[f])) {
          SameFileHolds(GRAPH_KINDS, after, g, records, g, f, GraphDocs(files[f]));
        }
      }
    }
  }

  /** Begins the fresh generation `g` and publishes it. */
  method PublishGeneration(
    server: Server, lease: Option<Lease>, g: GenerationId, base: BuildId, inputDigest: Option<string>,
    manifest: Manifest, staged: StagedGraph, second: StageSource, faults: GraphFaults)
    returns (r: Result<(), Conflict>)
    requires server.Valid() && g !in server.begun && g !in server.generations && second.Valid()
    requires GenerationsKnown(server.doc.graph, server.generations) && GraphOwned(staged.files)
    requires staged.retained.Some? ==> staged.retained.value == ToWrite(server.doc.graph, staged.files)
    modifies server`doc, server`seqNo, server`records, server`generations, server`now, server`worlds, server`events
    ensures server.Valid() && server.Continues(old(server.worlds), old(server.events))
    ensures server.doc.active == old(server.doc.active)
    ensures GenerationsKnown(server.doc.graph, server.generations)
    ensures r.Ok? ==> server.doc.active == Some(base)
    ensures r.Ok? ==> server.doc.graph.VisibleGeneration(server.doc.active) == Some(g)
    ensures r.Ok? && (staged.retained.Some? || second.Graph() == staged.files) ==>
      (ShowsGraph(server.records, g, staged.files) <==>
       CopiedFilesIntact(old(server.records), old(server.doc.graph), staged.files))
    ensures r.Ok? ==> GraceIsKept(old(server.doc.graph), g, server.now, server.grace, server.doc.graph.retired,
                                  server.records)
    ensures r.Err? ==> server.doc.graph.generation == old(server.doc.graph.generation)
  {
    ghost var ws, es := server.worlds, server.events;
    var current := server.doc.graph;
    if current.pending.Some? {
      LeftoversAreNotCurrent(server.records, current, staged.files, current.pending.value);
    }
    r := MarkPending(server, lease, g);
    if r.Ok? {
      ghost var wt, et := server.worlds, server.events;
      r := WriteAndPromote(server, lease, g, base, inputDigest, manifest, staged, second, current, faults);
      server.ContinuesOn(ws, es, wt, et);
    }
  }

  /** Points the current generation at the new base when its recorded digests
      are the staged ones, file for file. */
  method RepointIfIdentical(
    server: Server, lease: Option<Lease>, base: BuildId, inputDigest: Option<string>, manifest: Manifest,
    staged: StagedGraph) returns (r: Result<Option<GenerationId>, Conflict>)
    requires server.Valid()
    modifies server`doc, server`seqNo, server`worlds, server`events
    ensures server.Valid() && server.Continues(old(server.worlds), old(server.events))
    ensures server.doc.active == old(server.doc.active)
    ensures GenerationsKnown(old(server.doc.graph), server.generations) ==>
      GenerationsKnown(server.doc.graph, server.generations)
    ensures r.Ok? && r.value.Some? ==> AllRecordedAsStaged(old(server.doc.graph), staged.files)
    ensures r.Ok? && r.value.Some? ==> server.doc.graph.VisibleGeneration(server.doc.active) == r.value
    ensures r.Ok? && r.value.Some? ==> old(server.doc.graph.generation) == r.value
    ensures r.Err? || r.value.None? ==> server.doc == old(server.doc)
  {
    var current := server.doc.graph;
    if !RecordsIdentical(current, staged) {
      return Ok(None);
    }
    IdenticalRecords(current, staged);
    var repointed := RepointGraph(server, lease, current.generation.value, base, inputDigest, manifest);
    r := if repointed.Err? then Err(repointed.error)
         else Ok(if repointed.value then current.generation else None);
  }

  /** Points the current generation at the base if it recorded the staged graph,
      and publishes `g` otherwise. */
  method PublishStagedGraph(
    server: Server, lease: Option<Lease>, g: GenerationId, base: BuildId, inputDigest: Option<string>,
    manifest: Manifest, staged: StagedGraph, second: StageSource, faults: GraphFaults)
    returns (r: Result<GraphReport, Conflict>)
    requires server.Valid() && g !in server.begun && g !in server.generations && second.Valid()
    requires GenerationsKnown(server.doc.graph, server.generations) && GraphOwned(staged.files)
    requires staged.retained.Some? ==> staged.retained.value == ToWrite(server.doc.graph, staged.files)
    modifies server`doc, server`seqNo, server`records, server`generations, server`now, server`worlds, server`events
    ensures server.Valid() && server.Continues(old(server.worlds), old(server.events))
    ensures server.doc.active == old(server.doc.active)
    ensures GenerationsKnown(server.doc.graph, server.generations)
    ensures r.Ok? ==> r.value.published
    ensures r.Ok? ==> server.doc.graph.VisibleGeneration(server.doc.active) == Some(r.value.generation)
    ensures r.Ok? && r.value.generation == g && second.Graph() == staged.files ==>
      (ShowsGraph(server.records, g, staged.files) <==>
       CopiedFilesIntact(old(server.records), old(server.doc.graph), staged.files))
    ensures r.Ok? && r.value.generation == g ==>
      GraceIsKept(old(server.doc.graph), g, server.now, server.grace, server.doc.graph.retired, server.records)
    ensures r.Ok? && r.value.generation != g ==> server.records == old(server.records)
    ensures r.Ok? && r.value.generation != g ==> old(server.doc.graph.generation) == Some(r.value.generation)
    ensures r.Ok? && r.value.rebound ==> AllRecordedAsStaged(old(server.doc.graph), staged.files)
    ensures r.Err? ==> server.doc.graph.generation == old(server.doc.graph.generation)
  {
    var repointed := RepointIfIdentical(server, lease, base, inputDigest, manifest, staged);
    if repointed.Err? {
      return Err(repointed.error);
    }
    if repointed.value.Some? {
      return Ok(GraphReport(repointed.value.value, true, true));
    }
    var done := PublishGeneration(server, lease, g, base, inputDigest, manifest, staged, second, faults);
    r := if done.Ok? then Ok(GraphReport(g, true, false)) else Err(done.error);
  }

  /** Publishes the staged graph. On success the reported generation is the
      visible one: a new one that shows the staged graph exactly when the
      copied records were intact, or the current one when its recorded digests
      already are the staged ones; it then shows what it showed before. A failure
      leaves the current one in place. */
  method PublishGraph(
    server: Server, lease: Option<Lease>, g: GenerationId, base: BuildId, inputDigest: Option<string>,
    keys: Option<string>, src: StageSource, second: StageSource, faults: GraphFaults)
    returns (r: Result<GraphReport, Conflict>)
    requires server.Valid() && g !in server.begun && g !in server.generations
    requires src.Valid() && second.Valid() && GraphOwned(src.Graph())
    requires GenerationsKnown(server.doc.graph, server.generations)
    modifies server`doc, server`seqNo, server`records, server`generations, server`now, server`worlds, server`events
    ensures server.Valid() && server.Continues(old(server.worlds), old(server.events))
    ensures server.doc.active == old(server.doc.active)
    ensures GenerationsKnown(server.doc.graph, server.generations)
    ensures r.Ok? ==> CheckLease(old(server.doc), lease, old(server.now)).Ok? && old(server.doc.active) == Some(base)
    ensures r.Ok? ==> server.doc.graph.VisibleGeneration(server.doc.active) == Some(r.value.generation)
    ensures r.Ok? && r.value.generation == g && second.Graph() == src.Graph() ==>
      (ShowsGraph(server.records, g, src.Graph()) <==>
       CopiedFilesIntact(old(server.records), old(server.doc.graph), src.Graph()))
    ensures r.Ok? && r.value.generation == g ==>
      GraceIsKept(old(server.doc.graph), g, server.now, server.grace, server.doc.graph.retired, server.records)
    ensures r.Ok? && r.value.generation != g ==> server.records == old(server.records)
    ensures r.Ok? && r.value.generation != g ==> old(server.doc.graph.generation) == Some(r.value.generation)
    ensures r.Ok? && r.value.rebound ==> AllRecordedAsStaged(old(server.doc.graph), src.Graph())
    ensures r.Ok? && !r.value.published ==> server.doc == old(server.doc)
    ensures r.Ok? && !r.value.published ==> old(server.doc.graph.manifest.Some? &&
                                                server.doc.graph.manifest.value.digest == (base, src.Graph()))
    ensures r.Err? ==> server.doc.graph.generation == old(server.doc.graph.generation)
  {
    var prev := server.SourceState();
    var allowed := CheckLease(prev.doc, lease, server.now);
    if allowed.Err? {
      return Err(allowed.error);
    }
    if prev.doc.active != Some(base) {
      return Err(BaseSuperseded);
    }
    var current := prev.doc.graph;
    var staged, order := StageWithin(src, base, current, STAGE_RETAIN_RECORDS);
    var visible := current.VisibleGeneration(Some(base));
    if visible.Some? && current.manifest.Some? && current.manifest.value.digest == staged.digest {
      return Ok(GraphReport(visible.value, false, false));
    }
    var manifest := Manifest(staged.digest, staged.files, keys);
    r := PublishStagedGraph(server, lease, g, base, inputDigest, manifest, staged, second, faults);
  }
}
