/** The graph record of the state document over every commit log: where a
    visible generation came from, and what is never served. */
module GraphFencing {
  import opened Wrappers
  import opened StateDocument
  import opened Interleaving

  /** The commit bound generation `g` to base `b`, which it found to be the active build. */
  ghost predicate Binds<M>(c: Commit<M>, g: GenerationId, b: Option<BuildId>)
  {
    && c.req.Patch? && (c.req.op.Promote? || c.req.op.Repoint? || c.req.op.Rebind?)
    && c.after.graph.generation == Some(g) && c.after.graph.base == b
    && b.Some? && c.before.active == b && c.after.graph.state == GraphReady
  }

  ghost predicate BoundBefore<M>(log: seq<Commit<M>>, i: nat, g: GenerationId, b: Option<BuildId>)
    requires i <= |log|
  {
    exists m :: 0 <= m < i && Binds(log[m], g, b)
  }

  /** Every write of the generation or its base found that base to be the active build. */
  lemma {:induction false} GenerationWasBound<M>(initial: Doc<M>, log: seq<Commit<M>>, i: nat)
    requires ValidLog(initial, log) && i <= |log| && initial.graph.generation == None
    requires DocAt(initial, log, i).graph.generation.Some?
    ensures BoundBefore(log, i, DocAt(initial, log, i).graph.generation.value, DocAt(initial, log, i).graph.base)
  {
    var c := log[i - 1];
    assert IsChained(initial, log, i - 1) && IsAttributed(log, i - 1);
    var g := c.after.graph;
    if g.generation == c.before.graph.generation && g.base == c.before.graph.base {
      GenerationWasBound(initial, log, i - 1);
      var m :| 0 <= m < i - 1 && Binds(log[m], g.generation.value, g.base);
    } else {
      assert Binds(log[i - 1], g.generation.value, g.base);
    }
  }

  /** A generation visible to readers was promoted, repointed or rebound by a
      write that found the readers' own base to be the active build. */
  lemma VisibleGenerationIsFenced<M>(initial: Doc<M>, log: seq<Commit<M>>, i: nat, g: GenerationId)
    requires ValidLog(initial, log) && i <= |log| && initial.graph.generation == None
    requires DocAt(initial, log, i).graph.VisibleGeneration(DocAt(initial, log, i).active) == Some(g)
    ensures exists m :: 0 <= m < i && Binds(log[m], g, DocAt(initial, log, i).active)
  {
    GenerationWasBound(initial, log, i);
  }

  lemma EveryVisibleGenerationIsFenced<M>(worlds: seq<World<M>>, events: seq<Event<M>>, w: nat, g: GenerationId)
    requires IsRun(worlds, events) && w < |worlds| && worlds[0].stored.doc.graph.generation == None
    requires worlds[w].stored.doc.graph.VisibleGeneration(worlds[w].stored.doc.active) == Some(g)
    ensures exists m :: 0 <= m < |worlds[w].log| && Binds(worlds[w].log[m], g, worlds[w].stored.doc.active)
  {
    RunHasValidLog(worlds, events, w);
    VisibleGenerationIsFenced(worlds[0].stored.doc, worlds[w].log, |worlds[w].log|, g);
  }

  // ---- pending generations ------------------------------------------------------------------

  predicate Marks<M>(c: Commit<M>, g: GenerationId)
  {
    c.req.Patch? && c.req.op.MarkPending? && c.req.op.generation == g
  }

  ghost predicate MarkedBefore<M>(log: seq<Commit<M>>, i: nat, g: GenerationId)
    requires i <= |log|
  {
    exists m :: 0 <= m < i && Marks(log[m], g)
  }

  /** Generation ids are new: none is marked pending twice. */
  ghost predicate GenerationsAreNew<M>(log: seq<Commit<M>>)
  {
    forall m, g :: 0 <= m < |log| && Marks(log[m], g) ==> !MarkedBefore(log, m, g)
  }

  ghost predicate PendingIsNotGeneration<M>(log: seq<Commit<M>>, i: nat, doc: Doc<M>)
    requires i <= |log|
  {
    && (doc.graph.pending.Some? ==> MarkedBefore(log, i, doc.graph.pending.value))
    && (doc.graph.generation.Some? ==> MarkedBefore(log, i, doc.graph.generation.value))
    && (doc.graph.pending.Some? ==> doc.graph.pending != doc.graph.generation)
  }

  lemma MarkedStays<M>(log: seq<Commit<M>>, i: nat, g: GenerationId)
    requires i < |log| && MarkedBefore(log, i, g)
    ensures MarkedBefore(log, i + 1, g)
  {
  }

  lemma {:induction false} PendingNeverGeneration<M>(initial: Doc<M>, log: seq<Commit<M>>, i: nat)
    requires ValidLog(initial, log) && i <= |log| && GenerationsAreNew(log)
    requires initial.graph.generation == None && initial.graph.pending == None
    ensures PendingIsNotGeneration(log, i, DocAt(initial, log, i))
  {
    if i > 0 {
      PendingNeverGeneration(initial, log, i - 1);
      var c := log[i - 1];
      assert IsChained(initial, log, i - 1) && IsAttributed(log, i - 1);
      if c.before.graph.pending.Some? { MarkedStays(log, i - 1, c.before.graph.pending.value); }
      if c.before.graph.generation.Some? { MarkedStays(log, i - 1, c.before.graph.generation.value); }
      if c.req.Patch? && c.req.op.MarkPending? {
        assert Marks(log[i - 1], c.req.op.generation);
      }
    }
  }

  /** A pending generation is never served, to strict readers or to others. */
  lemma PendingNeverServed<M>(
    initial: Doc<M>, log: seq<Commit<M>>, i: nat, active: Option<BuildId>, strict: bool)
    requires ValidLog(initial, log) && i <= |log| && GenerationsAreNew(log)
    requires initial.graph.generation == None && initial.graph.pending == None
    ensures var g := DocAt(initial, log, i).graph; var served := g.ServedGeneration(active, strict);
      served.Some? ==> g.pending != Some(served.value.0)
  {
    PendingNeverGeneration(initial, log, i);
  }

  // ---- a new base ------------------------------------------------------------------------------

  ghost predicate PublishedBefore<M>(log: seq<Commit<M>>, i: nat, b: BuildId)
    requires i <= |log|
  {
    exists m :: 0 <= m < i && Publishes(log[m], b)
  }

  predicate Publishes<M>(c: Commit<M>, b: BuildId)
  {
    c.req.Patch? && c.req.op.Publish? && c.req.op.build == b
  }

  lemma {:induction false} ActiveWasPublished<M>(initial: Doc<M>, log: seq<Commit<M>>, i: nat, b: BuildId)
    requires ValidLog(initial, log) && i <= |log| && initial.active == None
    requires DocAt(initial, log, i).active == Some(b)
    ensures PublishedBefore(log, i, b)
  {
    var c := log[i - 1];
    assert IsChained(initial, log, i - 1) && IsAttributed(log, i - 1);
    if c.before.active == Some(b) {
      ActiveWasPublished(initial, log, i - 1, b);
    } else {
      assert Publishes(log[i - 1], b);
    }
  }

  /** The base of a recorded generation was published earlier. */
  lemma BoundBaseWasPublished<M>(initial: Doc<M>, log: seq<Commit<M>>, k: nat)
    requires ValidLog(initial, log) && k <= |log| && initial.active == None && initial.graph.generation == None
    requires DocAt(initial, log, k).graph.generation.Some?
    ensures DocAt(initial, log, k).graph.base.Some?
    ensures PublishedBefore(log, k, DocAt(initial, log, k).graph.base.value)
  {
    var g := DocAt(initial, log, k).graph;
    GenerationWasBound(initial, log, k);
    var m :| 0 <= m < k && Binds(log[m], g.generation.value, g.base);
    assert IsChained(initial, log, m);
    ActiveWasPublished(initial, log, m, g.base.value);
    var n :| 0 <= n < m && Publishes(log[n], g.base.value);
  }

  /** Publishing a build for the first time keeps the graph record but leaves no
      generation visible: what was `ready` is at most stale, and non-strict
      readers get it flagged stale. */
  lemma NewBaseMakesGraphStale<M>(initial: Doc<M>, log: seq<Commit<M>>, k: nat, b: BuildId)
    requires ValidLog(initial, log) && k < |log| && initial.active == None && initial.graph.generation == None
    requires Publishes(log[k], b) && !PublishedBefore(log, k, b)
    ensures var c := log[k]; var g := c.after.graph;
      g == c.before.graph &&
      g.VisibleGeneration(c.after.active) == None &&
      (g.generation.Some? ==> g.EffectiveState(c.after.active) != GraphReady) &&
      (var served := g.ServedGeneration(c.after.active, false); served.Some? ==> served.value.1)
  {
    var c := log[k];
    assert IsChained(initial, log, k);
    if c.before.graph.generation.Some? {
      BoundBaseWasPublished(initial, log, k);
    }
  }
}
