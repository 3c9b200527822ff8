/** Runs of a lease-serialised writer: base builds and graph generations are
    begun, copied, written, published and aborted one after another while the
    clock advances, and readers stay pinned to builds. */
module SerialisedRuns {
  import opened Wrappers
  import opened StateDocument
  import opened Records

  /** The document, the records and the clock; `attempt` is the build begun
      last, `begun` every build ever begun, `generations` every graph generation. */
  datatype World<M, P> = World(
    doc: Doc<M>, records: Index<P>, now: Time, grace: nat,
    attempt: Option<BuildId>, begun: set<BuildId>, generations: set<GenerationId>)

  /** How far a publication got. */
  datatype Outcome = NotApplied | AppliedOnly | Complete

  datatype Event<M, P> =
    | Tick(elapsed: nat)
    | Touch(op: Op<M>)
    | Acquire(owner: string, ttl: nat)
    | BeginNew(build: BuildId)
    | CopyBase(files: set<FileId>)
    | WriteBase(docs: map<Key, (FileId, P)>)
    | PublishPending(outcome: Outcome)
    | AbortAttempt
    | NewGeneration(generation: GenerationId)
    | CopyGraph(from: GenerationId, to: GenerationId, files: set<FileId>, keep: set<GenerationId>)
    | WriteGraph(generation: GenerationId, docs: map<Key, (FileId, P)>)
    | DropGraph(generation: GenerationId)

  function RetiredIds(retired: seq<Retired>): set<BuildId>
  {
    set e | e in retired :: e.id
  }

  /** Builds a reader may still be pinned to. */
  function Pinned<M>(doc: Doc<M>): set<BuildId>
  {
    RetiredIds(doc.retired) + if doc.active.Some? then {doc.active.value} else {}
  }

  /** Begin: delete the leftovers of another pending build, then record the new one. */
  function BeginIn<M, P>(doc: Doc<M>, records: Index<P>, b: BuildId): (Doc<M>, Index<P>)
  {
    (Apply<M>(Begin(b), doc, 0).value,
     if doc.pending.Some? && doc.pending.value != b then Detach(records, doc.pending.value) else records)
  }

  /** Publish: the compare-and-swap, then (unless it was interrupted) collection
      of everything but the new build and the kept retired ones. */
  function PublishIn<M, P>(w: World<M, P>, b: BuildId, outcome: Outcome): (Doc<M>, Index<P>)
  {
    var keep := Retire(w.doc.retired, w.doc.active, b, w.now, w.grace);
    match outcome
    case NotApplied => (w.doc, w.records)
    case AppliedOnly => (Apply<M>(Publish(b, keep), w.doc, w.now).value, w.records)
    case Complete => (Apply<M>(Publish(b, keep), w.doc, w.now).value, Collect(w.records, RetiredIds(keep) + {b}))
  }

  /** Abort of `b` under `lease`: refused for the active build; a superseded
      holder only deletes the records of a build that is not pending. */
  function AbortIn<M, P>(doc: Doc<M>, records: Index<P>, lease: Option<Lease>, b: BuildId, now: Time):
    Result<(Doc<M>, Index<P>), Conflict>
  {
    if doc.active == Some(b) then Err(StillActive)
    else if CheckLease(doc, lease, now).Err? then
      if doc.pending == Some(b) then Err(CheckLease(doc, lease, now).error)
      else Ok((doc, Detach(records, b)))
    else if doc.pending == Some(b) then Ok((Apply<M>(Abort, doc, now).value, Detach(records, b)))
    else Ok((doc, Detach(records, b)))
  }

  /** The holder's abort: its lease check passes. */
  function AbortByHolder<M, P>(doc: Doc<M>, records: Index<P>, b: BuildId): (Doc<M>, Index<P>)
  {
    if doc.active == Some(b) then (doc, records)
    else if doc.pending == Some(b) then (Apply<M>(Abort, doc, 0).value, Detach(records, b))
    else (doc, Detach(records, b))
  }

  /** Writes that leave the builds of the document alone. */
  predicate TouchesNoBuild<M>(op: Op<M>)
  {
    !op.Begin? && !op.Publish? && !op.Abort?
  }

  predicate Enabled<M, P>(w: World<M, P>, e: Event<M, P>)
  {
    match e
    case Tick(_) => true
    case Touch(op) => TouchesNoBuild(op)
    case Acquire(_, _) => true
    case BeginNew(b) => b !in w.begun && b !in w.generations
    case CopyBase(_) => w.doc.pending.Some? && w.doc.active.Some?
    case WriteBase(docs) => w.doc.pending.Some? && KeysIn(docs, BASE_KINDS)
    case PublishPending(_) => w.doc.pending.Some?
    case AbortAttempt => w.attempt.Some?
    case NewGeneration(g) => g !in w.begun
    case CopyGraph(from, to, _, _) => from in w.generations && to in w.generations
    case WriteGraph(g, docs) => g in w.generations && KeysIn(docs, GRAPH_KINDS)
    case DropGraph(g) => g in w.generations
  }

  function Next<M, P>(w: World<M, P>, e: Event<M, P>): World<M, P>
    requires Enabled(w, e)
  {
    match e
    case Tick(elapsed) => w.(now := w.now + elapsed)
    case Touch(op) => if Apply(op, w.doc, w.now).Ok? then w.(doc := Apply(op, w.doc, w.now).value) else w
    case Acquire(owner, ttl) =>
      if Grant(w.doc, owner, ttl, w.now).Ok? then w.(doc := Grant(w.doc, owner, ttl, w.now).value) else w
    case BeginNew(b) =>
      var after := BeginIn(w.doc, w.records, b);
      w.(doc := after.0, records := after.1, attempt := Some(b), begun := w.begun + {b})
    case CopyBase(files) =>
      var from := w.doc.active.value;
      w.(records := Attach(w.records, BASE_KINDS, from, w.doc.pending.value, files, Pinned(w.doc)))
    case WriteBase(docs) => w.(records := Put(w.records, w.doc.pending.value, docs))
    case PublishPending(outcome) =>
      var after := PublishIn(w, w.doc.pending.value, outcome);
      w.(doc := after.0, records := after.1)
    case AbortAttempt =>
      var after := AbortByHolder(w.doc, w.records, w.attempt.value);
      w.(doc := after.0, records := after.1)
    case NewGeneration(g) => w.(generations := w.generations + {g})
    case CopyGraph(from, to, files, keep) =>
      w.(records := Attach(w.records, GRAPH_KINDS, from, to, files, keep))
    case WriteGraph(g, docs) => w.(records := Put(w.records, g, docs))
    case DropGraph(g) => w.(records := Detach(w.records, g))
  }

  ghost predicate BuildsOk<M, P>(w: World<M, P>)
  {
    && (w.doc.pending.Some? ==> w.attempt == w.doc.pending && w.doc.pending != w.doc.active)
    && (w.attempt.Some? ==> w.attempt.value in w.begun && w.attempt.value !in RetiredIds(w.doc.retired))
    && (w.doc.active.Some? ==> w.doc.active.value in w.begun && w.doc.active.value !in RetiredIds(w.doc.retired))
    && RetiredIds(w.doc.retired) <= w.begun
    && forall e :: e in w.doc.retired ==> e.at <= w.now
  }

  /** Base records belong to builds and graph records to generations, each
      written by one that was begun; the pending build's own records belong to
      no other build. */
  ghost predicate RecordOk<M, P>(w: World<M, P>, id: DocId)
    requires id in w.records
  {
    var owners := if id.kind in BASE_KINDS then w.begun else w.generations;
    && id.writer in owners && w.records[id].builds <= owners
    && (w.doc.pending == Some(id.writer) ==> w.records[id].builds <= {id.writer})
  }

  /** Builds and generations never share an id. */
  ghost predicate WritersOk<M, P>(w: World<M, P>)
  {
    w.begun !! w.generations && forall id :: id in w.records ==> RecordOk(w, id)
  }

  ghost predicate Inv<M, P>(w: World<M, P>)
  {
    BuildsOk(w) && WritersOk(w)
  }

  predicate Starts<M, P>(w: World<M, P>)
  {
    w.doc.active == None && w.doc.pending == None && w.doc.retired == [] && w.records == map[] && w.attempt == None &&
    w.begun !! w.generations
  }

  ghost predicate Steps<M, P>(w: World<M, P>, e: Event<M, P>, next: World<M, P>)
  {
    Enabled(w, e) && next == Next(w, e)
  }

  ghost predicate StepAt<M, P>(worlds: seq<World<M, P>>, events: seq<Event<M, P>>, k: nat)
    requires k < |events| && |worlds| == |events| + 1
  {
    Steps(worlds[k], events[k], worlds[k + 1])
  }

  ghost predicate IsRun<M, P>(worlds: seq<World<M, P>>, events: seq<Event<M, P>>)
  {
    && |worlds| == |events| + 1 && Starts(worlds[0])
    && forall k :: 0 <= k < |events| ==> StepAt(worlds, events, k)
  }

  lemma TouchKeepsBuilds<M>(op: Op<M>, doc: Doc<M>, now: Time)
    requires TouchesNoBuild(op) && Apply(op, doc, now).Ok?
    ensures var after := Apply(op, doc, now).value;
      after.active == doc.active && after.pending == doc.pending && after.retired == doc.retired
  {
  }

  lemma PublicationKeepsBuilds<M, P>(w: World<M, P>, outcome: Outcome)
    requires Inv(w) && w.doc.pending.Some?
    ensures BuildsOk(Next(w, PublishPending(outcome)))
  {
  }

  lemma OtherStepKeepsBuilds<M, P>(w: World<M, P>, e: Event<M, P>)
    requires Inv(w) && Enabled(w, e) && !e.PublishPending?
    ensures BuildsOk(Next(w, e))
  {
  }

  lemma StepKeepsBuilds<M, P>(w: World<M, P>, e: Event<M, P>)
    requires Inv(w) && Enabled(w, e)
    ensures BuildsOk(Next(w, e))
  {
    if e.PublishPending? { PublicationKeepsBuilds(w, e.outcome); } else { OtherStepKeepsBuilds(w, e); }
  }

  predicate AddsRecords<M, P>(e: Event<M, P>)
  {
    e.CopyBase? || e.WriteBase? || e.CopyGraph? || e.WriteGraph?
  }

  lemma AddedRecordOk<M, P>(w: World<M, P>, e: Event<M, P>, id: DocId)
    requires Inv(w) && Enabled(w, e) && AddsRecords(e) && id in Next(w, e).records
    ensures RecordOk(Next(w, e), id)
  {
    if id in w.records {
      assert RecordOk(w, id);
    }
  }

  lemma KeptRecordOk<M, P>(w: World<M, P>, e: Event<M, P>, id: DocId)
    requires Inv(w) && Enabled(w, e) && !AddsRecords(e) && id in Next(w, e).records
    ensures RecordOk(Next(w, e), id)
  {
    assert RecordOk(w, id);
  }

  lemma StepKeepsWriters<M, P>(w: World<M, P>, e: Event<M, P>)
    requires Inv(w) && Enabled(w, e)
    ensures WritersOk(Next(w, e))
  {
    forall id | id in Next(w, e).records
      ensures RecordOk(Next(w, e), id)
    {
      if AddsRecords(e) { AddedRecordOk(w, e, id); } else { KeptRecordOk(w, e, id); }
    }
  }

  lemma {:induction false} RunKeepsInvariant<M, P>(worlds: seq<World<M, P>>, events: seq<Event<M, P>>, k: nat)
    requires IsRun(worlds, events) && k < |worlds|
    ensures Inv(worlds[k])
  {
    if k > 0 {
      RunKeepsInvariant(worlds, events, k - 1);
      assert StepAt(worlds, events, k - 1);
      StepKeepsBuilds(worlds[k - 1], events[k - 1]);
      StepKeepsWriters(worlds[k - 1], events[k - 1]);
    }
  }

  // ---- pinned readers ---------------------------------------------------------------------------

  predicate Applies<M, P>(e: Event<M, P>)
  {
    e.PublishPending? && !e.outcome.NotApplied?
  }

  /** A record of a build is a base record. */
  lemma BaseRecord<M, P>(w: World<M, P>, id: DocId, b: BuildId)
    requires WritersOk(w) && b in w.begun && id in w.records && b in w.records[id].builds
    ensures id.kind in BASE_KINDS && id.writer in w.begun
  {
    assert RecordOk(w, id);
  }

  lemma GraphCopyKeepsBaseView<M, P>(
    w: World<M, P>, from: GenerationId, to: GenerationId, files: set<FileId>, keep: set<GenerationId>, b: BuildId)
    requires WritersOk(w) && from in w.generations && to in w.generations && b in w.begun
    ensures View(Attach(w.records, GRAPH_KINDS, from, to, files, keep), b) == View(w.records, b)
  {
    var after := Attach(w.records, GRAPH_KINDS, from, to, files, keep);
    forall id | id in w.records
      ensures b in after[id].builds <==> b in w.records[id].builds
    {
      assert RecordOk(w, id);
    }
  }

  lemma GraphWriteKeepsBaseView<M, P>(w: World<M, P>, g: GenerationId, docs: map<Key, (FileId, P)>, b: BuildId)
    requires WritersOk(w) && g in w.generations && b in w.begun && KeysIn(docs, GRAPH_KINDS)
    ensures View(Put(w.records, g, docs), b) == View(w.records, b)
  {
    forall id | id in View(w.records, b)
      ensures id !in WrittenIds(g, docs)
    {
      BaseRecord(w, id, b);
    }
  }

  /** One step of anybody's begin, copy, write, publication or abort leaves the
      view of a pinned build alone, unless it is a publication that drops it. */
  lemma StepKeepsPinnedView<M, P>(w: World<M, P>, e: Event<M, P>, b: BuildId)
    requires Inv(w) && Enabled(w, e) && b in Pinned(w.doc)
    requires b in Pinned(Next(w, e).doc)
    ensures View(Next(w, e).records, b) == View(w.records, b)
  {
    match e
    case Tick(_) =>
    case Touch(op) =>
    case Acquire(_, _) =>
    case BeginNew(n) =>
      if w.doc.pending.Some? { DetachKeepsOtherViews(w.records, w.doc.pending.value, b); }
    case CopyBase(files) =>
      AttachKeepsView(w.records, BASE_KINDS, w.doc.active.value, w.doc.pending.value, files, Pinned(w.doc), b);
    case WriteBase(docs) =>
      PutKeepsOtherViews(w.records, w.doc.pending.value, docs, b);
    case PublishPending(outcome) =>
      if outcome.Complete? {
        var p := w.doc.pending.value;
        var keep := Retire(w.doc.retired, w.doc.active, p, w.now, w.grace);
        CollectKeepsView(w.records, RetiredIds(keep) + {p}, b);
      }
    case AbortAttempt =>
      if w.doc.active != w.attempt { DetachKeepsOtherViews(w.records, w.attempt.value, b); }
    case NewGeneration(_) =>
    case CopyGraph(from, to, files, keep) =>
      GraphCopyKeepsBaseView(w, from, to, files, keep, b);
    case WriteGraph(g, docs) =>
      GraphWriteKeepsBaseView(w, g, docs, b);
    case DropGraph(g) =>
      DetachKeepsOtherViews(w.records, g, b);
  }

  /** A retired build stays retired until a publication at or after the end of its grace. */
  lemma StepKeepsRetired<M, P>(w: World<M, P>, e: Event<M, P>, r: Retired)
    requires Inv(w) && Enabled(w, e) && r in w.doc.retired
    requires Applies(e) ==> w.now < r.at + w.grace
    ensures r in Next(w, e).doc.retired
  {
    if e.Touch? && Apply(e.op, w.doc, w.now).Ok? { TouchKeepsBuilds(e.op, w.doc, w.now); }
  }

  /** The active build stays active, or is retired at the moment it is replaced. */
  lemma StepKeepsActive<M, P>(w: World<M, P>, e: Event<M, P>, b: BuildId)
    requires Inv(w) && Enabled(w, e) && w.doc.active == Some(b)
    ensures !Applies(e) ==> Next(w, e).doc.active == Some(b)
    ensures Applies(e) && w.grace > 0 ==> Retired(b, w.now) in Next(w, e).doc.retired
  {
    if e.Touch? && Apply(e.op, w.doc, w.now).Ok? { TouchKeepsBuilds(e.op, w.doc, w.now); }
  }

  lemma RetiredIsPinned<M>(doc: Doc<M>, r: Retired)
    requires r in doc.retired
    ensures r.id in Pinned(doc)
  {
  }

  lemma RetiredStepKeepsView<M, P>(w: World<M, P>, e: Event<M, P>, next: World<M, P>, r: Retired)
    requires Inv(w) && Steps(w, e, next) && r in w.doc.retired
    requires Applies(e) ==> w.now < r.at + w.grace
    ensures r in next.doc.retired
    ensures View(next.records, r.id) == View(w.records, r.id)
  {
    StepKeepsRetired(w, e, r);
    RetiredIsPinned(w.doc, r);
    RetiredIsPinned(next.doc, r);
    StepKeepsPinnedView(w, e, r.id);
  }

  /** A build replaced at time T keeps exactly its record view under all later
      begins, copy-forwards, writes, aborts and publications, until a
      publication at T + grace or later. */
  lemma {:induction false} RetiredBuildKeepsView<M, P>(
    worlds: seq<World<M, P>>, events: seq<Event<M, P>>, i: nat, j: nat, r: Retired)
    requires IsRun(worlds, events) && i <= j < |worlds|
    requires r in worlds[i].doc.retired
    requires forall k :: i <= k < j && Applies(events[k]) ==> worlds[k].now < r.at + worlds[k].grace
    ensures r in worlds[j].doc.retired
    ensures View(worlds[j].records, r.id) == View(worlds[i].records, r.id)
    decreases j - i
  {
    if i < j {
      RetiredBuildKeepsView(worlds, events, i, j - 1, r);
      RunKeepsInvariant(worlds, events, j - 1);
      assert StepAt(worlds, events, j - 1);
      RetiredStepKeepsView(worlds[j - 1], events[j - 1], worlds[j], r);
    }
  }

  lemma ActiveStepKeepsView<M, P>(w: World<M, P>, e: Event<M, P>, next: World<M, P>, b: BuildId)
    requires Inv(w) && Steps(w, e, next) && w.doc.active == Some(b) && !Applies(e)
    ensures next.doc.active == Some(b)
    ensures View(next.records, b) == View(w.records, b)
  {
    StepKeepsActive(w, e, b);
    StepKeepsPinnedView(w, e, b);
  }

  /** The active build's view never changes while it is active, whatever is
      begun, written, copied, aborted or lost. */
  lemma {:induction false} ActiveBuildKeepsView<M, P>(
    worlds: seq<World<M, P>>, events: seq<Event<M, P>>, i: nat, j: nat, b: BuildId)
    requires IsRun(worlds, events) && i <= j < |worlds|
    requires worlds[i].doc.active == Some(b)
    requires forall k :: i <= k < j ==> !Applies(events[k])
    ensures worlds[j].doc.active == Some(b)
    ensures View(worlds[j].records, b) == View(worlds[i].records, b)
    decreases j - i
  {
    if i < j {
      ActiveBuildKeepsView(worlds, events, i, j - 1, b);
      RunKeepsInvariant(worlds, events, j - 1);
      assert StepAt(worlds, events, j - 1);
      ActiveStepKeepsView(worlds[j - 1], events[j - 1], worlds[j], b);
    }
  }

  /** Only a publication changes the active build. */
  lemma {:induction false} ActiveChangesByPublication<M, P>(
    worlds: seq<World<M, P>>, events: seq<Event<M, P>>, i: nat, j: nat)
    requires IsRun(worlds, events) && i <= j < |worlds|
    requires forall k :: i <= k < j ==> !Applies(events[k])
    ensures worlds[j].doc.active == worlds[i].doc.active
    decreases j - i
  {
    if i < j {
      ActiveChangesByPublication(worlds, events, i, j - 1);
      assert StepAt(worlds, events, j - 1);
      if events[j - 1].Touch? && Apply(events[j - 1].op, worlds[j - 1].doc, worlds[j - 1].now).Ok? {
        TouchKeepsBuilds(events[j - 1].op, worlds[j - 1].doc, worlds[j - 1].now);
      }
    }
  }

  lemma {:induction false} ClockNeverRunsBack<M, P>(worlds: seq<World<M, P>>, events: seq<Event<M, P>>, i: nat, j: nat)
    requires IsRun(worlds, events) && i <= j < |worlds|
    ensures worlds[i].now <= worlds[j].now && worlds[i].grace == worlds[j].grace
    decreases j - i
  {
    if i < j {
      ClockNeverRunsBack(worlds, events, i, j - 1);
      assert StepAt(worlds, events, j - 1);
    }
  }

  /** A reader pinned to the active build sees the same records for at least
      the grace period, across any number of publications. */
  lemma {:induction false} PinnedReaderKeepsView<M, P>(
    worlds: seq<World<M, P>>, events: seq<Event<M, P>>, i: nat, j: nat, b: BuildId)
    requires IsRun(worlds, events) && i <= j < |worlds|
    requires worlds[i].doc.active == Some(b)
    requires worlds[j].now < worlds[i].now + worlds[i].grace
    ensures View(worlds[j].records, b) == View(worlds[i].records, b)
    decreases j - i
  {
    if i < j {
      ClockNeverRunsBack(worlds, events, i, i + 1);
      ClockNeverRunsBack(worlds, events, i, j);
      RunKeepsInvariant(worlds, events, i);
      assert StepAt(worlds, events, i);
      StepKeepsActive(worlds[i], events[i], b);
      if Applies(events[i]) {
        var r := Retired(b, worlds[i].now);
        RetiredIsPinned(worlds[i + 1].doc, r);
        StepKeepsPinnedView(worlds[i], events[i], b);
        forall k | i + 1 <= k < j
          ensures worlds[k].now < r.at + worlds[k].grace
        {
          ClockNeverRunsBack(worlds, events, i, k);
          ClockNeverRunsBack(worlds, events, k, j);
        }
        RetiredBuildKeepsView(worlds, events, i + 1, j, r);
      } else {
        StepKeepsPinnedView(worlds[i], events[i], b);
        PinnedReaderKeepsView(worlds, events, i + 1, j, b);
      }
    }
  }

  /** A publication that was applied but reported as failed is safe: the
      writer's abort of it changes neither the document nor any record. */
  lemma AbortAfterLostReply<M, P>(w: World<M, P>)
    requires Inv(w) && w.doc.pending.Some?
    ensures var published := Next(w, PublishPending(AppliedOnly));
      Enabled(published, AbortAttempt) && Next(published, AbortAttempt) == published &&
      published.doc.active == w.doc.pending
  {
  }

  // ---- outside lease-serialised runs ----------------------------------------------------------------

  /** The abort of `b` changes what readers of some pinned build see. */
  ghost predicate DropsPinned<M, P>(doc: Doc<M>, records: Index<P>, lease: Option<Lease>, b: BuildId, now: Time)
  {
    AbortIn(doc, records, lease, b, now).Ok? && exists p :: ChangesView(doc, records, lease, b, now, p)
  }

  ghost predicate ChangesView<M, P>(
    doc: Doc<M>, records: Index<P>, lease: Option<Lease>, b: BuildId, now: Time, p: BuildId)
    requires AbortIn(doc, records, lease, b, now).Ok?
  {
    p in Pinned(doc) && View(AbortIn(doc, records, lease, b, now).value.1, p) != View(records, p)
  }

  /** Exactly when an abort takes records from a build readers are pinned to: when
      the build to abort is itself a retired one that shows something, neither
      active again nor pending for another holder. It then shows nothing. */
  lemma AbortDropsPinnedIffRetired<M, P>(
    doc: Doc<M>, records: Index<P>, lease: Option<Lease>, b: BuildId, now: Time)
    ensures DropsPinned(doc, records, lease, b, now) <==>
      && b in RetiredIds(doc.retired) && doc.active != Some(b) && View(records, b) != map[]
      && (doc.pending == Some(b) ==> CheckLease(doc, lease, now).Ok?)
    ensures DropsPinned(doc, records, lease, b, now) ==>
      View(AbortIn(doc, records, lease, b, now).value.1, b) == map[]
  {
    DetachEmptiesView(records, b);
    if AbortIn(doc, records, lease, b, now).Ok? {
      if p :| ChangesView(doc, records, lease, b, now, p) && p != b {
        DetachKeepsOtherViews(records, b, p);
      }
      if b in Pinned(doc) && View(records, b) != map[] {
        assert ChangesView(doc, records, lease, b, now, b);
      }
    }
  }

  // ---- histories in which it happens -----------------------------------------------------------------

  /** `events` lead through `worlds`. */
  ghost predicate Chain<M, P>(worlds: seq<World<M, P>>, events: seq<Event<M, P>>)
  {
    |worlds| == |events| + 1 && forall k :: 0 <= k < |events| ==> StepAt(worlds, events, k)
  }

  lemma ChainOne<M, P>(w: World<M, P>, e: Event<M, P>, next: World<M, P>)
    requires Steps(w, e, next)
    ensures Chain([w, next], [e])
  {
  }

  lemma ChainJoins<M, P>(
    worlds: seq<World<M, P>>, events: seq<Event<M, P>>, more: seq<World<M, P>>, later: seq<Event<M, P>>)
    requires Chain(worlds, events) && Chain(more, later) && worlds[|events|] == more[0]
    ensures Chain(worlds + more[1..], events + later)
    ensures forall k :: 0 <= k <= |events| ==> (worlds + more[1..])[k] == worlds[k]
    ensures forall k :: 0 <= k <= |later| ==> (worlds + more[1..])[|events| + k] == more[k]
  {
    var ws, es := worlds + more[1..], events + later;
    forall k: nat | k < |es|
      ensures StepAt(ws, es, k)
    {
      if k < |events| {
        assert StepAt(worlds, events, k);
      } else {
        assert StepAt(more, later, k - |events|);
      }
    }
  }

  /** A holder begins `b` and writes some records. */
  lemma HolderWrites<M, P>(w: World<M, P>, owner: string, b: BuildId, docs: map<Key, (FileId, P)>, key: Key)
    returns (ws: seq<World<M, P>>, lease: Lease)
    requires Starts(w) && w.doc.owner == "" && b !in w.begun && b !in w.generations
    requires KeysIn(docs, BASE_KINDS) && key in docs
    ensures Chain(ws, [Acquire(owner, 1), BeginNew(b), WriteBase(docs)]) && ws[0] == w
    ensures var last := ws[3];
      && last.doc.pending == Some(b) && last.doc.expires == Some(last.now + 1) && last.grace == w.grace
      && last.begun == w.begun + {b} && last.generations == w.generations
      && lease == Lease(owner, last.doc.token, 1) && CheckLease(last.doc, Some(lease), last.now).Ok?
      && !ShowsNothing(last.records, b)
  {
    var w1 := Next(w, Acquire(owner, 1));
    var w2 := Next(w1, BeginNew(b));
    var w3 := Next(w2, WriteBase(docs));
    lease := Lease(owner, w3.doc.token, 1);
    assert b in w3.records[DocId(b, key.0, key.1)].builds;
    ws := [w, w1, w2, w3];
  }

  /** Its publication is applied unnoticed, its lease expires, and another
      owner begins a build. */
  lemma AnotherTakesOver<M, P>(w: World<M, P>, b: BuildId, other: string, c: BuildId) returns (ws: seq<World<M, P>>)
    requires w.doc.pending == Some(b) && c !in w.begun && c !in w.generations
    requires w.doc.expires == Some(w.now + 1)
    ensures Chain(ws, [PublishPending(AppliedOnly), Tick(1), Acquire(other, 1), BeginNew(c)]) && ws[0] == w
    ensures ws[1].doc.active == Some(b)
    ensures var last := ws[4];
      && last.doc.active == Some(b) && last.doc.pending == Some(c) && last.doc.token == w.doc.token + 1
      && last.records == w.records && last.grace == w.grace
  {
    var w1 := Next(w, PublishPending(AppliedOnly));
    var w2 := Next(w1, Tick(1));
    var w3 := Next(w2, Acquire(other, 1));
    ws := [w, w1, w2, w3, Next(w3, BeginNew(c))];
  }

  /** Readers pinned to the replaced build `b` lose what they saw when a superseded holder aborts it. */
  ghost predicate LosesPinned<M, P>(w: World<M, P>, lease: Lease, b: BuildId)
  {
    var aborted := AbortIn(w.doc, w.records, Some(lease), b, w.now);
    && Retired(b, w.now) in w.doc.retired && w.grace > 0 && !ShowsNothing(w.records, b)
    && aborted.Ok? && ShowsNothing(aborted.value.1, b)
  }

  lemma ReplacedThenAborted<M, P>(w: World<M, P>, b: BuildId, c: BuildId, lease: Lease) returns (after: World<M, P>)
    requires w.doc.active == Some(b) && w.doc.pending == Some(c) && b != c && w.grace > 0
    requires w.doc.token != lease.token && !ShowsNothing(w.records, b)
    ensures Chain([w, after], [PublishPending(Complete)]) && after.doc.active == Some(c) && LosesPinned(after, lease, b)
  {
    after := Next(w, PublishPending(Complete));
    var keep := Retire(w.doc.retired, w.doc.active, c, w.now, w.grace);
    assert Retired(b, w.now) in keep;
    var id :| id in w.records && b in w.records[id].builds;
    assert b in w.records[id].builds * (RetiredIds(keep) + {c});
    assert id in after.records;
    ChainOne(w, PublishPending(Complete), after);
  }

  /** Whoever the holders are and whatever they write: a holder begins `b`,
      publishes it and never learns that the publication was applied; its lease
      expires, another holder replaces `b` by `c`; then the first one's abort of
      `b`, inside the grace period, takes every record from the readers pinned to `b`. */
  lemma LateAbortEmptiesRetired<M, P>(
    w: World<M, P>, first: string, second: string, b: BuildId, c: BuildId, docs: map<Key, (FileId, P)>, key: Key)
    returns (worlds: seq<World<M, P>>, events: seq<Event<M, P>>, lease: Lease)
    requires Starts(w) && w.doc.owner == "" && w.grace > 0 && b != c
    requires b !in w.begun && b !in w.generations && c !in w.begun && c !in w.generations
    requires KeysIn(docs, BASE_KINDS) && key in docs
    ensures events == [Acquire(first, 1), BeginNew(b), WriteBase(docs), PublishPending(AppliedOnly), Tick(1),
                       Acquire(second, 1), BeginNew(c), PublishPending(Complete)]
    ensures IsRun(worlds, events) && worlds[0] == w && lease.owner == first
    ensures CheckLease(worlds[3].doc, Some(lease), worlds[3].now).Ok? && worlds[4].doc.active == Some(b)
    ensures worlds[8].doc.active == Some(c) && LosesPinned(worlds[8], lease, b)
  {
    var written, taken;
    written, lease := HolderWrites(w, first, b, docs, key);
    taken := AnotherTakesOver(written[3], b, second, c);
    var after := ReplacedThenAborted(taken[4], b, c, lease);
    var one := [Acquire(first, 1), BeginNew(b), WriteBase(docs)];
    var two := [PublishPending(AppliedOnly), Tick(1), Acquire(second, 1), BeginNew(c)];
    ChainJoins(written, one, taken, two);
    ChainJoins(written + taken[1..], one + two, [taken[4], after], [PublishPending(Complete)]);
    worlds, events := written + taken[1..] + [taken[4], after][1..], one + two + [PublishPending(Complete)];
  }

  // ---- what the operations on builds mean ----------------------------------------------------

  /** Beginning a build takes the leftovers of another pending build away, and
      nothing from anybody else. */
  lemma BeginMeans<M, P>(doc: Doc<M>, records: Index<P>, b: BuildId)
    ensures
      var (after, left) := BeginIn(doc, records, b);
      && SameLease(after, doc) && after.graph == doc.graph && after.active == doc.active && after.retired == doc.retired
      && after.pending == Some(b) && after.state == BuildingBase
      && (doc.pending.Some? && doc.pending.value != b ==> ShowsNothing(left, doc.pending.value))
      && forall c :: doc.pending != Some(c) || c == b ==> View(left, c) == View(records, c)
  {
    if doc.pending.Some? {
      forall c | c != doc.pending.value
        ensures View(Detach(records, doc.pending.value), c) == View(records, c)
      {
        DetachKeepsOtherViews(records, doc.pending.value, c);
      }
    }
  }

  /** An abort is refused for the active build, and for a pending one without its
      lease. Otherwise the build shows nothing and every other one what it showed;
      the document changes only if the lease is held and the build was pending. */
  lemma AbortMeans<M, P>(doc: Doc<M>, records: Index<P>, lease: Option<Lease>, b: BuildId, now: Time)
    ensures AbortIn(doc, records, lease, b, now).Ok? <==>
      doc.active != Some(b) && (doc.pending == Some(b) ==> CheckLease(doc, lease, now).Ok?)
    ensures AbortIn(doc, records, lease, b, now) == Err(StillActive) <==> doc.active == Some(b)
    ensures AbortIn(doc, records, lease, b, now).Ok? ==>
      var (after, left) := AbortIn(doc, records, lease, b, now).value;
      && ShowsNothing(left, b) && (forall c :: c != b ==> View(left, c) == View(records, c))
      && SameLease(after, doc) && after.graph == doc.graph && after.active == doc.active && after.retired == doc.retired
      && if doc.pending == Some(b) then
           after.pending == None && after.state == if doc.active == None then NeedsFullRebuild else FailedBase
         else after == doc
  {
    forall c | c != b
      ensures View(Detach(records, b), c) == View(records, c)
    {
      DetachKeepsOtherViews(records, b, c);
    }
  }

  /** A publication that is applied makes the build active and decides by time
      which replaced builds are kept; one that is also completed leaves exactly the
      records of the active and the kept builds (and manual links). */
  lemma PublicationMeans<M, P>(w: World<M, P>, b: BuildId, outcome: Outcome, e: Retired, id: DocId)
    requires id in w.records
    ensures
      var (after, left) := PublishIn(w, b, outcome);
      if outcome == NotApplied then after == w.doc && left == w.records
      else
        && after.active == Some(b) && after.pending == None && after.state == ReadyBase
        && SameLease(after, w.doc) && after.graph == w.doc.graph
        && (e in after.retired <==>
              && (e in w.doc.retired || (w.doc.active == Some(e.id) && e.id != b && e.at == w.now))
              && w.grace > 0 && w.now < e.at + w.grace)
        && (outcome == AppliedOnly ==> left == w.records)
        && (outcome == Complete ==>
              (id in left <==> w.records[id].manual || exists k :: k in Pinned(after) && k in w.records[id].builds))
  {
    var keep := Retire(w.doc.retired, w.doc.active, b, w.now, w.grace);
    KeptUntilGraceEnds(w.doc.retired, w.doc.active, b, w.now, w.grace, e);
    CollectedRecord(w.records, RetiredIds(keep) + {b}, id);
  }

  // ---- builds whose grace is over ---------------------------------------------------------------

  /** No build is retired twice. */
  ghost predicate RetiredOnce<M>(doc: Doc<M>)
  {
    forall e, f :: e in doc.retired && f in doc.retired && e.id == f.id ==> e == f
  }

  lemma StepRetiresOnce<M, P>(w: World<M, P>, e: Event<M, P>)
    requires Inv(w) && RetiredOnce(w.doc) && Enabled(w, e)
    ensures RetiredOnce(Next(w, e).doc)
  {
    if e.Touch? && Apply(e.op, w.doc, w.now).Ok? {
      TouchKeepsBuilds(e.op, w.doc, w.now);
    } else if Applies(e) {
      forall r | r in Next(w, e).doc.retired
        ensures r in w.doc.retired || (w.doc.active == Some(r.id) && r.at == w.now)
      {
        KeptUntilGraceEnds(w.doc.retired, w.doc.active, w.doc.pending.value, w.now, w.grace, r);
      }
      assert forall r :: r in w.doc.retired ==> r.id in RetiredIds(w.doc.retired);
    }
  }

  lemma {:induction false} RunRetiresOnce<M, P>(worlds: seq<World<M, P>>, events: seq<Event<M, P>>, k: nat)
    requires IsRun(worlds, events) && k < |worlds|
    ensures RetiredOnce(worlds[k].doc)
  {
    if k > 0 {
      RunRetiresOnce(worlds, events, k - 1);
      RunKeepsInvariant(worlds, events, k - 1);
      assert StepAt(worlds, events, k - 1);
      StepRetiresOnce(worlds[k - 1], events[k - 1]);
    }
  }

  /** A build that was begun and is neither pending nor anything a reader may be pinned to. */
  ghost predicate IsDropped<M, P>(w: World<M, P>, b: BuildId)
  {
    b in w.begun && b !in Pinned(w.doc) && w.doc.pending != Some(b)
  }

  /** The first publication that is applied once the grace of a retired build has
      passed drops it. */
  lemma GraceEnds<M, P>(w: World<M, P>, e: Event<M, P>, r: Retired)
    requires Inv(w) && RetiredOnce(w.doc) && Enabled(w, e) && r in w.doc.retired
    requires Applies(e) && r.at + w.grace <= w.now
    ensures IsDropped(Next(w, e), r.id)
  {
    var b := w.doc.pending.value;
    assert r.id in RetiredIds(w.doc.retired);
    forall f | f in Next(w, e).doc.retired
      ensures f.id != r.id
    {
      KeptUntilGraceEnds(w.doc.retired, w.doc.active, b, w.now, w.grace, f);
    }
  }

  lemma DroppedStepStays<M, P>(w: World<M, P>, e: Event<M, P>, b: BuildId)
    requires Inv(w) && Enabled(w, e) && IsDropped(w, b)
    ensures IsDropped(Next(w, e), b)
  {
    if e.Touch? && Apply(e.op, w.doc, w.now).Ok? {
      TouchKeepsBuilds(e.op, w.doc, w.now);
    } else if Applies(e) {
      forall f | f in Next(w, e).doc.retired
        ensures f.id != b
      {
        KeptUntilGraceEnds(w.doc.retired, w.doc.active, w.doc.pending.value, w.now, w.grace, f);
        assert f in w.doc.retired ==> f.id in RetiredIds(w.doc.retired);
      }
    }
  }

  lemma {:induction false} DroppedStaysDropped<M, P>(
    worlds: seq<World<M, P>>, events: seq<Event<M, P>>, i: nat, j: nat, b: BuildId)
    requires IsRun(worlds, events) && i <= j < |worlds| && IsDropped(worlds[i], b)
    ensures IsDropped(worlds[j], b)
    decreases j - i
  {
    if i < j {
      DroppedStaysDropped(worlds, events, i, j - 1, b);
      RunKeepsInvariant(worlds, events, j - 1);
      assert StepAt(worlds, events, j - 1);
      DroppedStepStays(worlds[j - 1], events[j - 1], b);
    }
  }

  /** The record belongs to a build readers may be pinned to, or is a manual link. */
  ghost predicate IsKept<M, P>(w: World<M, P>, id: DocId)
    requires id in w.records
  {
    w.records[id].manual || exists k :: k in Pinned(w.doc) && k in w.records[id].builds
  }

  lemma CompletedPublicationCollects<M, P>(w: World<M, P>, e: Event<M, P>, id: DocId)
    requires Enabled(w, e) && e == PublishPending(Complete) && id in Next(w, e).records
    ensures IsKept(Next(w, e), id)
  {
    var b := w.doc.pending.value;
    PublicationMeans(w, b, Complete, Retired(b, 0), id);
  }

  /** The other half of the grace promise. Once a publication is applied at T plus
      grace or later, a build retired at T is never again among those readers may
      be pinned to; and once one is also completed, what is left of it are records
      that a kept build shares (or manual links). */
  lemma ExpiredBuildIsCollected<M, P>(
    worlds: seq<World<M, P>>, events: seq<Event<M, P>>, i: nat, j: nat, r: Retired)
    requires IsRun(worlds, events) && i < j < |worlds| && r in worlds[i].doc.retired
    requires Applies(events[i]) && r.at + worlds[i].grace <= worlds[i].now
    ensures r.id !in Pinned(worlds[j].doc) && worlds[j].doc.pending != Some(r.id)
    ensures events[j - 1] == PublishPending(Complete) ==>
      forall id :: id in View(worlds[j].records, r.id) ==> IsKept(worlds[j], id)
  {
    RunKeepsInvariant(worlds, events, i);
    RunRetiresOnce(worlds, events, i);
    assert StepAt(worlds, events, i);
    GraceEnds(worlds[i], events[i], r);
    DroppedStaysDropped(worlds, events, i + 1, j, r.id);
    if events[j - 1] == PublishPending(Complete) {
      assert StepAt(worlds, events, j - 1);
      forall id | id in View(worlds[j].records, r.id)
        ensures IsKept(worlds[j], id)
      {
        CompletedPublicationCollects(worlds[j - 1], events[j - 1], id);
      }
    }
  }
}
