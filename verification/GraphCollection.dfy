/** What garbage collection of base builds does to graph generations: graph
    records carry generation ids only, and a base publication keeps base
    builds only, so it deletes every generation's records. */
module GraphCollection {
  import opened Wrappers
  import opened StateDocument
  import opened Records
  import opened SerialisedRuns
  import opened CopyForward
  import opened Publication
  import opened GraphStaging
  import opened GraphPublication

  /** A generation keeps its view through a collection exactly when each of its
      records is shared with a kept build or is a manual link. */
  lemma SurvivesCollectionIff<P>(records: Index<P>, keep: set<BuildId>, g: GenerationId)
    ensures View(Collect(records, keep), g) == View(records, g)
      <==> forall id :: id in View(records, g) ==> records[id].manual || records[id].builds * keep != {}
  {
    forall id | id in View(records, g)
      ensures id in View(Collect(records, keep), g) <==> records[id].manual || records[id].builds * keep != {}
    {
      CollectedView(records, keep, g, id);
    }
  }

  lemma KeptBuildsWereBegun<M, P>(w: World<M, P>, b: BuildId)
    requires Inv(w) && w.doc.pending == Some(b)
    ensures RetiredIds(Retire(w.doc.retired, w.doc.active, b, w.now, w.grace)) + {b} <= w.begun
  {
    forall e | e in w.doc.retired
      ensures e.id in RetiredIds(w.doc.retired)
    {
    }
  }

  /** A completed base publication leaves no graph record of any generation,
      in any reachable state. */
  lemma BasePublicationEmptiesGraph<M, P>(w: World<M, P>, b: BuildId, g: GenerationId)
    requires Inv(w) && w.doc.pending == Some(b) && g in w.generations
    requires forall id :: id in View(w.records, g) ==> !w.records[id].manual
    ensures View(Next(w, PublishPending(Complete)).records, g) == map[]
  {
    var keep := RetiredIds(Retire(w.doc.retired, w.doc.active, b, w.now, w.grace)) + {b};
    KeptBuildsWereBegun(w, b);
    forall id | id in View(w.records, g)
      ensures id !in Collect(w.records, keep)
    {
      assert RecordOk(w, id);
      assert w.records[id].builds * keep == {};
    }
  }

  /** Hence pointing the old generation at the base just published (its inputs
      being identical) makes a generation visible that shows nothing. */
  lemma ReboundGraphShowsNothing<M, P>(w: World<M, P>, b: BuildId, g: GenerationId, digest: string)
    requires Inv(w) && w.doc.pending == Some(b) && g in w.generations
    requires forall id :: id in View(w.records, g) ==> !w.records[id].manual
    requires IsSettledOn(w.doc.graph, g) && w.doc.graph.inputDigest == Some(digest)
    ensures var published := Next(w, PublishPending(Complete));
      var rebound := Next(published, Touch(Rebind(g, b, digest)));
      && rebound.doc.graph.VisibleGeneration(rebound.doc.active) == Some(g)
      && View(rebound.records, g) == map[]
  {
    BasePublicationEmptiesGraph(w, b, g);
  }

  /** So the rebound generation no longer shows the graph that was staged for it,
      unless no file of that graph has a relationship. */
  lemma ReboundGraphIsLost<M>(
    w: World<M, Body>, b: BuildId, g: GenerationId, digest: string, files: map<FileId, FileGraph>, f: FileId)
    requires Inv(w) && w.doc.pending == Some(b) && g in w.generations
    requires forall id :: id in View(w.records, g) ==> !w.records[id].manual
    requires f in files && (files[f].edges != map[] || files[f].links != map[])
    ensures
      var published := Next(w, PublishPending(Complete));
      !ShowsGraph(Next(published, Touch(Rebind(g, b, digest))).records, g, files)
  {
    BasePublicationEmptiesGraph(w, b, g);
    var published := Next(w, PublishPending(Complete));
    if ShowsGraph(published.records, g, files) {
      NothingShown(published.records, g, files, f);
    }
  }

  /** A generation without records shows a staged graph only if that graph has none. */
  lemma NothingShown(records: Index<Body>, g: GenerationId, files: map<FileId, FileGraph>, f: FileId)
    requires View(records, g) == map[] && ShowsGraph(records, g, files) && f in files
    ensures files[f].edges == map[] && files[f].links == map[]
  {
    var docs := GraphDocs(files[f]);
    assert FileHolds(GRAPH_KINDS, records, g, f, Wanted(GraphContents(files), f));
    forall key
      ensures !ShowsKey(GRAPH_KINDS, records, g, f, key)
    {
      NoKeyShown(records, g, f, key);
    }
    assert forall key :: key !in docs;
    assert forall id :: id in files[f].edges.Keys + files[f].links.Keys ==> (Relationships, id) in docs;
    assert files[f].edges.Keys == {} && files[f].links.Keys == {};
  }

  lemma NoKeyShown(records: Index<Body>, g: GenerationId, f: FileId, key: Key)
    requires View(records, g) == map[]
    ensures !ShowsKey(GRAPH_KINDS, records, g, f, key)
  {
    forall id
      ensures !Shows(GRAPH_KINDS, records, g, f, id)
    {
      assert id !in View(records, g);
    }
  }

  // ---- as long as no base publication completes -------------------------------------------

  /** Steps that leave generation `g` alone: no completed base publication, no
      deletion of `g`, no copy that forgets it and no write into it. */
  predicate Spares<M, P>(e: Event<M, P>, g: GenerationId)
  {
    && !(e.PublishPending? && e.outcome.Complete?)
    && (e.DropGraph? ==> e.generation != g)
    && (e.CopyGraph? ==> g in e.keep && g != e.to)
    && (e.WriteGraph? ==> e.generation != g)
  }

  lemma BaseStepSparesGraph<M, P>(w: World<M, P>, e: Event<M, P>, g: GenerationId)
    requires Inv(w) && Enabled(w, e) && g in w.generations && Spares(e, g)
    requires e.BeginNew? || e.CopyBase? || e.WriteBase? || e.AbortAttempt?
    ensures View(Next(w, e).records, g) == View(w.records, g)
  {
    match e
    case BeginNew(_) =>
      if w.doc.pending.Some? { DetachKeepsOtherViews(w.records, w.doc.pending.value, g); }
    case CopyBase(files) =>
      BaseCopyKeepsGraphView(w, w.doc.active.value, w.doc.pending.value, files, Pinned(w.doc), g);
    case WriteBase(docs) =>
      BaseWriteKeepsGraphView(w, w.doc.pending.value, docs, g);
    case AbortAttempt =>
      if w.doc.active != w.attempt { DetachKeepsOtherViews(w.records, w.attempt.value, g); }
  }

  lemma WriteSparesView<P>(records: Index<P>, h: GenerationId, docs: map<Key, (FileId, P)>, g: GenerationId)
    requires g != h && forall id :: id in View(records, g) ==> id.writer != h
    ensures View(Put(records, h, docs), g) == View(records, g)
  {
    forall id | id in View(records, g)
      ensures id !in WrittenIds(h, docs)
    {
    }
  }

  lemma GraphStepSparesGraph<M, P>(w: World<M, P>, e: Event<M, P>, g: GenerationId)
    requires Enabled(w, e) && Spares(e, g) && (e.CopyGraph? || e.WriteGraph? || e.DropGraph?)
    requires e.WriteGraph? ==> forall id :: id in View(w.records, g) ==> id.writer != e.generation
    ensures View(Next(w, e).records, g) == View(w.records, g)
  {
    match e
    case CopyGraph(from, to, files, keep) =>
      AttachKeepsView(w.records, GRAPH_KINDS, from, to, files, keep, g);
    case WriteGraph(h, docs) =>
      WriteSparesView(w.records, h, docs, g);
    case DropGraph(h) =>
      DetachKeepsOtherViews(w.records, h, g);
  }

  lemma StepSparesGraph<M, P>(w: World<M, P>, e: Event<M, P>, g: GenerationId)
    requires Inv(w) && Enabled(w, e) && g in w.generations && Spares(e, g)
    requires e.WriteGraph? ==> forall id :: id in View(w.records, g) ==> id.writer != e.generation
    ensures View(Next(w, e).records, g) == View(w.records, g)
  {
    if e.BeginNew? || e.CopyBase? || e.WriteBase? || e.AbortAttempt? {
      BaseStepSparesGraph(w, e, g);
    } else if e.CopyGraph? || e.WriteGraph? || e.DropGraph? {
      GraphStepSparesGraph(w, e, g);
    }
  }

  /** The steps from `i` to `j` leave `g` alone and write into later generations only. */
  ghost predicate Spared<M, P>(worlds: seq<World<M, P>>, events: seq<Event<M, P>>, g: GenerationId, i: nat, j: nat)
    requires i < |worlds| && j <= |events|
  {
    forall k :: i <= k < j ==>
      Spares(events[k], g) && (events[k].WriteGraph? ==> events[k].generation !in worlds[i].generations)
  }

  lemma GraphWritersAreGenerations<M, P>(w: World<M, P>, g: GenerationId)
    requires Inv(w) && g in w.generations
    ensures forall id :: id in View(w.records, g) ==> id.writer in w.generations
  {
    forall id | id in View(w.records, g)
      ensures id.writer in w.generations
    {
      assert RecordOk(w, id);
    }
  }

  /** Over whole runs: as long as no base publication completes, a generation
      keeps its view while base builds and later generations come and go. */
  lemma {:induction false} SparedGenerationKeepsView<M, P>(
    worlds: seq<World<M, P>>, events: seq<Event<M, P>>, g: GenerationId, i: nat, j: nat)
    requires IsRun(worlds, events) && i <= j < |worlds| && g in worlds[i].generations && Spared(worlds, events, g, i, j)
    ensures g in worlds[j].generations && View(worlds[j].records, g) == View(worlds[i].records, g)
    decreases j - i
  {
    if i < j {
      SparedGenerationKeepsView(worlds, events, g, i, j - 1);
      RunKeepsInvariant(worlds, events, i);
      RunKeepsInvariant(worlds, events, j - 1);
      GraphWritersAreGenerations(worlds[i], g);
      assert StepAt(worlds, events, j - 1);
      WriterOutside(worlds[i], worlds[j - 1], events[j - 1], g);
      StepSparesGraph(worlds[j - 1], events[j - 1], g);
    }
  }

  lemma WriterOutside<M, P>(before: World<M, P>, w: World<M, P>, e: Event<M, P>, g: GenerationId)
    requires View(w.records, g) == View(before.records, g)
    requires forall id :: id in View(before.records, g) ==> id.writer in before.generations
    requires e.WriteGraph? ==> e.generation !in before.generations
    ensures e.WriteGraph? ==> forall id :: id in View(w.records, g) ==> id.writer != e.generation
  {
  }

  lemma BaseCopyKeepsGraphView<M, P>(
    w: World<M, P>, from: BuildId, to: BuildId, files: set<FileId>, keep: set<BuildId>, g: GenerationId)
    requires WritersOk(w) && from in w.begun && to in w.begun && g in w.generations
    ensures View(Attach(w.records, BASE_KINDS, from, to, files, keep), g) == View(w.records, g)
  {
    var after := Attach(w.records, BASE_KINDS, from, to, files, keep);
    forall id | id in w.records
      ensures g in after[id].builds <==> g in w.records[id].builds
    {
      assert RecordOk(w, id);
    }
  }

  lemma BaseWriteKeepsGraphView<M, P>(w: World<M, P>, b: BuildId, docs: map<Key, (FileId, P)>, g: GenerationId)
    requires WritersOk(w) && b in w.begun && g in w.generations && KeysIn(docs, BASE_KINDS)
    ensures View(Put(w.records, b, docs), g) == View(w.records, g)
  {
    forall id | id in View(w.records, g)
      ensures id !in WrittenIds(b, docs)
    {
      assert RecordOk(w, id);
    }
  }
}
