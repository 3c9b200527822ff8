/** The server backend of one registered source: its state document, its
    records and the operations of a lease-serialised writer. */
module Backend {
  import opened Wrappers
  import opened Sorting
  import opened StateDocument
  import opened Records
  import opened SerialisedRuns
  import opened CopyForward
  import opened Publication

  /** Most file ids per server-side copy request. */
  const COPY_BATCH: nat := 5000

  /** How many of the listed files are staged with the digest recorded on the server. */
  function Agreeing(order: seq<FileId>, staged: Staged, digests: map<FileId, Knowledge>): nat
  {
    if order == [] then 0
    else
      var f := order[|order| - 1];
      Agreeing(order[..|order| - 1], staged, digests) +
      if f in staged && f in digests && staged[f] == digests[f] then 1 else 0
  }

  lemma {:induction false} NothingAgrees(order: seq<FileId>, staged: Staged)
    ensures Agreeing(order, staged, map[]) == 0
    decreases |order|
  {
    if order != [] {
      NothingAgrees(order[..|order| - 1], staged);
    }
  }

  /** A document and the sequence number a conditional write must name. */
  datatype Versioned<M> = Versioned(doc: Doc<M>, seqNo: nat)

  /** Where a publication attempt fails, if it does. */
  datatype PublishFault = Undisturbed | RefreshFails | WriteFails | ReplyLost | CollectFails

  /** The faults of one attempt: the copy batches and written files after which
      a request fails, the time the writes take, and the publication's fault. */
  datatype Faults = Faults(copyBatches: Option<nat>, files: Option<nat>, elapsed: nat, publish: PublishFault)

  datatype Report = Report(build: Option<BuildId>, published: bool, files: nat, copied: nat, written: nat)

  /** What a read-modify-write of the state document decides. */
  function Patched<M>(doc: Doc<M>, lease: Option<Lease>, op: Op<M>, now: Time): Result<Doc<M>, Conflict>
  {
    if CheckLease(doc, lease, now).Err? then Err(CheckLease(doc, lease, now).error) else Apply(op, doc, now)
  }

  /** How far a publication of `b` gets and what its caller is told. */
  function PublishResult<M>(
    doc: Doc<M>, lease: Option<Lease>, b: BuildId, now: Time, fault: PublishFault): (Result<(), Conflict>, Outcome)
  {
    if doc.pending != Some(b) then (Err(NotPending), NotApplied)
    else if CheckLease(doc, lease, now).Err? then (Err(CheckLease(doc, lease, now).error), NotApplied)
    else match fault
      case Undisturbed => (Ok(()), Complete)
      case RefreshFails => (Err(Unreachable), NotApplied)
      case WriteFails => (Err(Changed), NotApplied)
      case ReplyLost => (Err(Unreachable), AppliedOnly)
      case CollectFails => (Err(Unreachable), AppliedOnly)
  }

  /** A publication of `b` reaches the document. */
  predicate MayApply<M>(doc: Doc<M>, lease: Option<Lease>, b: BuildId, now: Time, fault: PublishFault)
  {
    doc.pending == Some(b) && CheckLease(doc, lease, now).Ok? && fault != RefreshFails && fault != WriteFails
  }

  /** The entry is kept when `b` is published over `w`: it was retired before, or
      is the build replaced now, and its grace has not passed. */
  ghost predicate IsKeptRetired<M>(w: World<M, Body>, b: BuildId, e: Retired)
  {
    && (e in w.doc.retired || (w.doc.active == Some(e.id) && e.id != b && e.at == w.now))
    && w.grace > 0 && w.now < e.at + w.grace
  }

  /** The files are exactly the staged ones. */
  ghost predicate Lists(order: seq<FileId>, staged: Staged)
  {
    forall f :: f in order <==> f in staged
  }

  /** The records after copying `files` of the active build, if there is anything to copy. */
  function Copied(
    records: Index<Body>, active: Option<BuildId>, b: BuildId, files: seq<FileId>, keep: set<BuildId>): Index<Body>
  {
    if active.Some? && files != [] then Attach(records, BASE_KINDS, active.value, b, Elements(files), keep) else records
  }

  lemma CopiedIsAttached(
    records: Index<Body>, active: Option<BuildId>, b: BuildId, files: seq<FileId>, keep: set<BuildId>, from: BuildId)
    requires active.Some? ==> from == active.value
    requires active.None? ==> files == []
    ensures Copied(records, active, b, files, keep) == Attach(records, BASE_KINDS, from, b, Elements(files), keep)
  {
  }

  lemma WrittenBuildHolds(
    records: Index<Body>, active: Option<BuildId>, b: BuildId, staged: Staged, digests: map<FileId, Knowledge>,
    copy: seq<FileId>, write: seq<FileId>, keep: set<BuildId>)
    requires IsUnused(records, b) && PartsAreOwned(staged)
    requires digests != map[] ==> active.Some?
    requires digests != map[] ==> FilesHold(records, active.value, digests)
    requires forall f :: f in copy <==> Unchanged(staged, digests, f)
    requires forall f :: f in write <==> f in staged && !Unchanged(staged, digests, f)
    ensures Publishes(WriteFiles(Copied(records, active, b, copy, keep), b, BaseContents(staged), write), b, staged)
  {
    var from := if active.Some? then active.value else b;
    if copy != [] {
      assert Unchanged(staged, digests, copy[0]);
    }
    CopiedIsAttached(records, active, b, copy, keep, from);
    if active.Some? && digests != map[] {
      UnchangedFilesSuffice(records, from, b, staged, digests, Elements(copy), write, keep);
    } else {
      BaseContentsOwned(staged);
      CopiedFilesSuffice(BASE_KINDS, records, from, b, BaseContents(staged), Elements(copy), write, keep);
    }
  }

  /** The active build of `w` shows what was staged for it, and the stored digest is its digest. */
  ghost predicate Describes<M>(published: Staged, digest: Option<Staged>, w: World<M, Body>)
  {
    w.doc.active.Some? ==>
      && PartsAreOwned(published) && Publishes(w.records, w.doc.active.value, published)
      && (digest.Some? ==> digest.value == published)
  }

  /** No publication was applied from event `i` on. */
  ghost predicate NoPublication<M>(events: seq<Event<M, Body>>, i: nat)
  {
    forall k :: i <= k < |events| ==> !Applies(events[k])
  }

  /** A publication, however far it gets, leaves a build that is described. */
  lemma PublicationDescribes<M>(
    published: Staged, digest: Option<Staged>, w: World<M, Body>, b: BuildId, staged: Staged, outcome: Outcome)
    requires Describes(published, digest, w) && w.doc.pending == Some(b)
    requires Publishes(w.records, b, staged) && PartsAreOwned(staged)
    ensures var after := Next(w, PublishPending(outcome));
      if outcome.NotApplied? then after == w
      else after.doc.active == Some(b) && Describes(staged, Some(staged), after)
  {
    if outcome.Complete? {
      var keep := RetiredIds(Retire(w.doc.retired, w.doc.active, b, w.now, w.grace)) + {b};
      CollectionKeepsHolding(BASE_KINDS, w.records, keep, b, BaseContents(staged));
    }
  }

  lemma FreshBuildIsUnused<M>(w: World<M, Body>, b: BuildId)
    requires Inv(w) && b !in w.begun && b !in w.generations
    ensures IsUnused(BeginIn(w.doc, w.records, b).1, b)
  {
  }

  lemma StillDescribes<M>(
    worlds: seq<World<M, Body>>, events: seq<Event<M, Body>>, i: nat, published: Staged, digest: Option<Staged>)
    requires IsRun(worlds, events) && i < |worlds| && NoPublication(events, i)
    requires Describes(published, digest, worlds[i])
    ensures Describes(published, digest, worlds[|events|])
    ensures worlds[|events|].doc.active == worlds[i].doc.active
  {
    ActiveChangesByPublication(worlds, events, i, |events|);
    if worlds[i].doc.active.Some? {
      var b := worlds[i].doc.active.value;
      ActiveBuildKeepsView(worlds, events, i, |events|, b);
      SameViewHolds(BASE_KINDS, worlds[i].records, worlds[|events|].records, b, BaseContents(published));
    }
  }

  class ServerBackend<M> {
    var doc: Doc<M>
    var seqNo: nat
    var records: Index<Body>
    /** The digest of the whole published base, stored with each publication. */
    var contentDigest: Option<Staged>
    var now: Time
    const grace: nat

    ghost var attempt: Option<BuildId>
    ghost var begun: set<BuildId>
    ghost var generations: set<GenerationId>
    /** What was staged for the active build. */
    ghost var published: Staged
    /** The run so far. */
    ghost var worlds: seq<World<M, Body>>
    ghost var events: seq<Event<M, Body>>

    ghost function Now(): World<M, Body>
      reads this
    {
      World(doc, records, now, grace, attempt, begun, generations)
    }

    /** The state is the last one of the run so far. */
    ghost predicate Logged()
      reads this
    {
      IsRun(worlds, events) && worlds[|worlds| - 1] == Now()
    }

    /** The active build shows what was staged for it, and the stored digest is its digest. */
    ghost predicate Consistent()
      reads this
    {
      Describes(published, contentDigest, Now())
    }

    /** The run goes on from `ws` and `es` without a publication. */
    ghost predicate Continues(ws: seq<World<M, Body>>, es: seq<Event<M, Body>>)
      reads this
    {
      Logged() && ws <= worlds && es <= events && NoPublication(events, |es|)
    }

    ghost predicate Valid()
      reads this
    {
      Logged() && Consistent()
    }

    /** Registers the source. */
    constructor (grace: nat)
      ensures Valid() && events == [] && this.grace == grace
      ensures doc == Doc(NeedsFullRebuild, None, None, "", 0, None, [],
                         GraphRecord(GraphPending, None, None, None, None, None, []))
      ensures records == map[] && seqNo == 0 && now == 0
    {
      this.grace := grace;
      doc := Doc(NeedsFullRebuild, None, None, "", 0, None, [],
                 GraphRecord(GraphPending, None, None, None, None, None, []));
      seqNo, records, contentDigest, now := 0, map[], None, 0;
      attempt, begun, generations, published, events := None, {}, {}, map[], [];
      new;
      worlds := [Now()];
    }

    /** Appends one event to the run. */
    ghost method Log(e: Event<M, Body>)
      requires IsRun(worlds, events) && Steps(worlds[|worlds| - 1], e, Now())
      modifies `worlds, `events
      ensures Logged() && worlds == old(worlds) + [Now()] && events == old(events) + [e]
    {
      var w := Now();
      forall k: nat | k < |events| + 1
        ensures StepAt(worlds + [w], events + [e], k)
      {
        if k < |events| { assert StepAt(worlds, events, k); }
      }
      worlds, events := worlds + [w], events + [e];
    }

    // ---- the state document ------------------------------------------------------

    method SourceState() returns (s: Versioned<M>)
      ensures s == Versioned(doc, seqNo)
    {
      s := Versioned(doc, seqNo);
    }

    /** Compare-and-swap: stores `next` unless the document changed since `prev` was read. */
    method WriteState(prev: Versioned<M>, next: Doc<M>) returns (r: Result<(), Conflict>)
      modifies `doc, `seqNo
      ensures r.Ok? <==> old(seqNo) == prev.seqNo
      ensures r.Ok? ==> doc == next && seqNo == old(seqNo) + 1
      ensures r.Err? ==> r.error == Changed && doc == old(doc) && seqNo == old(seqNo)
    {
      if seqNo != prev.seqNo {
        return Err(Changed);
      }
      doc, seqNo := next, seqNo + 1;
      r := Ok(());
    }

    /** Read-modify-write under `lease`; `other` is what another process
        commits between the read and the write, and it is never overwritten. */
    method PatchState(lease: Option<Lease>, op: Op<M>, other: Option<Doc<M>>) returns (r: Result<(), Conflict>)
      modifies `doc, `seqNo
      ensures other.Some? ==> doc == other.value && r.Err?
      ensures r.Ok? ==> Patched(old(doc), lease, op, now) == Ok(doc)
      ensures r.Err? && other.None? ==> Patched(old(doc), lease, op, now) == Err(r.error) && doc == old(doc)
    {
      var prev := SourceState();
      if other.Some? {
        doc, seqNo := other.value, seqNo + 1;
      }
      var allowed := CheckLease(prev.doc, lease, now);
      if allowed.Err? {
        return Err(allowed.error);
      }
      var next := Apply(op, prev.doc, now);
      if next.Err? {
        return Err(next.error);
      }
      r := WriteState(prev, next.value);
    }

    /** A patch that leaves the builds alone, as one step of the run. */
    method PatchAndLog(lease: Option<Lease>, op: Op<M>) returns (r: Result<(), Conflict>)
      requires Valid() && TouchesNoBuild(op)
      modifies `doc, `seqNo, `worlds, `events
      ensures Valid() && Continues(old(worlds), old(events))
      ensures r.Ok? ==> Patched(old(doc), lease, op, now) == Ok(doc)
      ensures r.Err? ==> Patched(old(doc), lease, op, now) == Err(r.error) && doc == old(doc)
      ensures doc.active == old(doc).active
    {
      r := PatchState(lease, op, None);
      if r.Ok? {
        TouchKeepsBuilds(op, old(doc), now);
        Log(Touch(op));
      }
    }

    // ---- leases ------------------------------------------------------------------

    /** Grants the lease with the next fencing token unless another owner's is live. */
    method AcquireLease(owner: string, ttl: nat) returns (r: Result<Lease, Conflict>)
      requires Valid()
      modifies `doc, `seqNo, `worlds, `events
      ensures Valid() && old(worlds) <= worlds && old(events) <= events
      ensures r.Ok? <==> (old(doc).owner == "" || old(doc).owner == owner || !old(doc).LiveAt(now))
      ensures r.Ok? ==> r.value == Lease(owner, old(doc).token + 1, ttl)
      ensures r.Ok? ==> doc == old(doc).(owner := owner, token := r.value.token, expires := Some(now + ttl))
      ensures r.Ok? && ttl > 0 ==> CheckLease(doc, Some(r.value), now).Ok?
      ensures r.Err? ==> doc == old(doc)
    {
      var prev := SourceState();
      var granted := Grant(prev.doc, owner, ttl, now);
      if granted.Err? {
        return Err(granted.error);
      }
      var stored := WriteState(prev, granted.value);
      Log(Acquire(owner, ttl));
      r := Ok(Lease(owner, granted.value.token, ttl));
    }

    /** Extends a live lease; refused once it was superseded or expired. */
    method RenewLease(lease: Lease) returns (r: Result<(), Conflict>)
      requires Valid()
      modifies `doc, `seqNo, `worlds, `events
      ensures Valid() && old(worlds) <= worlds && old(events) <= events
      ensures r.Ok? <==> CheckLease(old(doc), Some(lease), now).Ok?
      ensures doc == if r.Ok? then old(doc).(expires := Some(now + lease.ttl)) else old(doc)
    {
      r := PatchAndLog(Some(lease), Renew(lease.ttl));
    }

    /** Gives the lease up; a superseded lease is left alone. */
    method ReleaseLease(lease: Lease)
      requires Valid()
      modifies `doc, `seqNo, `worlds, `events
      ensures Valid() && old(worlds) <= worlds && old(events) <= events
      ensures CheckLease(old(doc), Some(lease), now).Ok? ==> doc == old(doc).(owner := "", expires := None)
      ensures CheckLease(old(doc), Some(lease), now).Err? ==> doc == old(doc)
    {
      var r := PatchAndLog(Some(lease), Release);
    }

    method Wait(elapsed: nat)
      requires Logged()
      modifies `now, `worlds, `events
      ensures Continues(old(worlds), old(events)) && now == old(now) + elapsed
    {
      now := now + elapsed;
      Log(Tick(elapsed));
    }

    // ---- builds -------------------------------------------------------------------

    method DeleteBuildDocs(b: BuildId)
      modifies `records
      ensures records == Detach(old(records), b)
    {
      records := Detach(records, b);
    }

    method GcSource(keep: set<BuildId>)
      modifies `records
      ensures records == Collect(old(records), keep)
    {
      records := Collect(records, keep);
    }

    /** Deletes the leftovers of another pending build, then records the new one. */
    method BeginBuildWith(lease: Option<Lease>, b: BuildId) returns (r: Result<(), Conflict>)
      modifies `doc, `seqNo, `records
      ensures r.Ok? <==> CheckLease(old(doc), lease, now).Ok?
      ensures r.Ok? ==> (doc, records) == BeginIn(old(doc), old(records), b)
      ensures r.Ok? ==> doc.pending == Some(b) && doc.active == old(doc).active && doc.retired == old(doc).retired
      ensures r.Ok? && old(doc).pending.Some? && old(doc).pending.value != b ==>
        ShowsNothing(records, old(doc).pending.value)
      ensures r.Ok? ==>
        forall c :: old(doc).pending != Some(c) || c == b ==> View(records, c) == View(old(records), c)
      ensures r.Err? ==> doc == old(doc) && records == old(records)
    {
      BeginMeans(doc, records, b);
      var prev := SourceState();
      var allowed := CheckLease(prev.doc, lease, now);
      if allowed.Err? {
        return Err(allowed.error);
      }
      if prev.doc.pending.Some? && prev.doc.pending.value != b {
        DeleteBuildDocs(prev.doc.pending.value);
      }
      r := PatchState(lease, Begin(b), None);
    }

    lemma PublicationIsMeant(lease: Option<Lease>, b: BuildId, fault: PublishFault)
      ensures
        var outcome := PublishResult(doc, lease, b, now, fault).1;
        var (after, left) := PublishIn(Now(), b, outcome);
        && (outcome == NotApplied <==> !MayApply(doc, lease, b, now, fault))
        && (outcome == Complete <==> MayApply(doc, lease, b, now, fault) && fault == Undisturbed)
        && (outcome != NotApplied ==> forall e :: e in after.retired <==> IsKeptRetired(Now(), b, e))
        && (outcome == Complete ==>
              forall id :: id in records ==>
                (id in left <==> records[id].manual || exists k :: k in Pinned(after) && k in records[id].builds))
    {
      var outcome := PublishResult(doc, lease, b, now, fault).1;
      forall e
        ensures e in Retire(doc.retired, doc.active, b, now, grace) <==> IsKeptRetired(Now(), b, e)
      {
        KeptUntilGraceEnds(doc.retired, doc.active, b, now, grace, e);
      }
      forall id | id in records && outcome == Complete
        ensures
          var (after, left) := PublishIn(Now(), b, Complete);
          id in left <==> records[id].manual || exists k :: k in Pinned(after) && k in records[id].builds
      {
        PublicationMeans(Now(), b, Complete, Retired(b, 0), id);
      }
    }

    /** Makes the pending build `b` visible, retires the one it replaces and
        deletes what no kept build has. */
    method PublishBuildExt(lease: Option<Lease>, b: BuildId, digest: Staged, fault: PublishFault)
      returns (r: Result<(), Conflict>)
      modifies `doc, `seqNo, `records, `contentDigest
      ensures r == PublishResult(old(doc), lease, b, now, fault).0
      ensures (doc, records) == PublishIn(old(Now()), b, PublishResult(old(doc), lease, b, now, fault).1)
      ensures contentDigest ==
              if PublishResult(old(doc), lease, b, now, fault).1.NotApplied? then old(contentDigest) else Some(digest)
      ensures r.Ok? <==> MayApply(old(doc), lease, b, now, fault) && fault == Undisturbed
      ensures if MayApply(old(doc), lease, b, now, fault) then
                && doc.active == Some(b) && doc.pending == None && doc.owner == old(doc).owner
                && doc.token == old(doc).token && doc.graph == old(doc).graph
                && (forall e :: e in doc.retired <==> IsKeptRetired(old(Now()), b, e))
              else doc == old(doc) && records == old(records)
      ensures r.Err? ==> records == old(records)
      ensures r.Ok? ==>
        forall id :: id in old(records) ==>
          (id in records <==>
             old(records)[id].manual || exists k :: k in Pinned(doc) && k in old(records)[id].builds)
    {
      PublicationIsMeant(lease, b, fault);
      var prev := SourceState();
      if prev.doc.pending != Some(b) {
        return Err(NotPending);
      }
      var allowed := CheckLease(prev.doc, lease, now);
      if allowed.Err? {
        return Err(allowed.error);
      }
      if fault == RefreshFails {
        return Err(Unreachable);
      }
      var keep := Retire(prev.doc.retired, prev.doc.active, b, now, grace);
      if fault == WriteFails {
        return Err(Changed);
      }
      r := PatchState(lease, Publish(b, keep), None);
      assert r.Ok? && r.value == ();
      contentDigest := Some(digest);
      if fault == ReplyLost || fault == CollectFails {
        return Err(Unreachable);
      }
      GcSource(RetiredIds(keep) + {b});
    }

    /** Discards `b`; refused for the active build and for another holder's pending build. */
    method AbortBuildWith(lease: Option<Lease>, b: BuildId) returns (r: Result<(), Conflict>)
      modifies `doc, `seqNo, `records
      ensures r.Ok? <==> AbortIn(old(doc), old(records), lease, b, now).Ok?
      ensures r.Ok? ==> (doc, records) == AbortIn(old(doc), old(records), lease, b, now).value
      ensures r.Err? ==> r.error == AbortIn(old(doc), old(records), lease, b, now).error
      ensures r.Err? ==> doc == old(doc) && records == old(records)
      ensures r.Ok? <==> old(doc).active != Some(b) &&
                         (old(doc).pending == Some(b) ==> CheckLease(old(doc), lease, now).Ok?)
      ensures r.Ok? ==> ShowsNothing(records, b) && forall c :: c != b ==> View(records, c) == View(old(records), c)
      ensures r.Ok? ==> doc.pending != Some(b) && doc.active == old(doc).active && doc.retired == old(doc).retired
      ensures r.Ok? && old(doc).pending != Some(b) ==> doc == old(doc)
    {
      AbortMeans(doc, records, lease, b, now);
      var prev := SourceState();
      if prev.doc.active == Some(b) {
        return Err(StillActive);
      }
      var allowed := CheckLease(prev.doc, lease, now);
      if allowed.Err? {
        if prev.doc.pending == Some(b) {
          return Err(allowed.error);
        }
        DeleteBuildDocs(b);
        return Ok(());
      }
      DeleteBuildDocs(b);
      if prev.doc.pending == Some(b) {
        r := PatchState(lease, Abort, None);
      } else {
        r := Ok(());
      }
    }

    // ---- graph generations ------------------------------------------------------------

    /** Names a new graph generation. */
    ghost method OpenGeneration(g: GenerationId)
      requires Valid() && g !in begun
      modifies `generations, `worlds, `events
      ensures Valid() && Continues(old(worlds), old(events)) && generations == old(generations) + {g}
    {
      generations := generations + {g};
      Log(NewGeneration(g));
    }

    /** A generation no record carries yet. */
    lemma FreshGenerationIsUnused(g: GenerationId)
      requires Logged() && g !in begun && g !in generations
      ensures IsUnused(records, g)
    {
      RunKeepsInvariant(worlds, events, |worlds| - 1);
      forall id | id in records
        ensures id.writer != g && g !in records[id].builds
      {
        assert RecordOk(worlds[|worlds| - 1], id);
      }
    }

    /** Graph steps leave what the active build shows alone. */
    lemma GraphStepsKeepBase(i: nat)
      requires Logged() && i < |worlds| && NoPublication(events, i)
      requires Describes(published, contentDigest, worlds[i])
      ensures Consistent() && doc.active == worlds[i].doc.active
    {
      StillDescribes(worlds, events, i, published, contentDigest);
    }

    /** Copies graph records into another generation, keeping those in `keep`. */
    method CopyGraphRecords(
      from: GenerationId, to: GenerationId, files: seq<FileId>, keep: set<GenerationId>, failAfter: Option<nat>)
      returns (r: Result<(), Conflict>)
      requires Logged() && from in generations && to in generations
      modifies `records, `worlds, `events
      ensures Continues(old(worlds), old(events))
      ensures r.Ok? ==> records == Attach(old(records), GRAPH_KINDS, from, to, Elements(files), keep)
      ensures failAfter.None? ==> r.Ok?
    {
      var done;
      r, done := CopyForwardIn(GRAPH_KINDS, from, to, files, keep, failAfter);
      Log(CopyGraph(from, to, Elements(files[..done]), keep));
      assert files[..|files|] == files;
    }

    method WriteGraphRecords(g: GenerationId, docs: map<Key, (FileId, Body)>)
      requires Logged() && g in generations && KeysIn(docs, GRAPH_KINDS)
      modifies `records, `worlds, `events
      ensures Continues(old(worlds), old(events))
      ensures records == Put(old(records), g, docs)
    {
      records := Put(records, g, docs);
      Log(WriteGraph(g, docs));
    }

    method DropGeneration(g: GenerationId)
      requires Logged() && g in generations
      modifies `records, `worlds, `events
      ensures Continues(old(worlds), old(events))
      ensures records == Detach(old(records), g)
    {
      DeleteBuildDocs(g);
      Log(DropGraph(g));
    }

    // ---- publication from the staging store --------------------------------------------

    /** The knowledge digest of every file of build `b`. */
    method BuildFileDigests(b: BuildId) returns (digests: map<FileId, Knowledge>)
      ensures AreDigestsOf(records, b, digests)
    {
      digests := map[];
      var rest := records.Keys;
      while rest != {}
        invariant rest <= records.Keys
        invariant forall id, f, d :: id !in rest && RecordsDigest(records, b, id, f, d) ==> f in digests
        invariant forall f :: f in digests ==> HasDigest(records, b, f, digests[f])
        decreases |rest|
      {
        var id :| id in rest;
        var r := records[id];
        if b in r.builds && id.kind == Files && r.payload.FileBody? {
          assert RecordsDigest(records, b, id, r.file, r.payload.digest);
          digests := digests[r.file := r.payload.digest];
        }
        rest := rest - {id};
      }
    }

    /** Copies the records of `files` from one build into another, in batches;
        a failing batch leaves the earlier ones copied. */
    method CopyForwardIn(
      kinds: set<Kind>, from: BuildId, to: BuildId, files: seq<FileId>, keep: set<BuildId>, failAfter: Option<nat>)
      returns (r: Result<(), Conflict>, done: nat)
      modifies `records
      ensures done <= |files| && (r.Ok? ==> done == |files|)
      ensures failAfter.None? ==> r.Ok?
      ensures records == Attach(old(records), kinds, from, to, Elements(files[..done]), keep)
    {
      done := 0;
      var batches := 0;
      while done < |files|
        invariant done <= |files|
        invariant records == Attach(old(records), kinds, from, to, Elements(files[..done]), keep)
      {
        if failAfter == Some(batches) {
          return Err(Unreachable), done;
        }
        var next := if done + COPY_BATCH <= |files| then done + COPY_BATCH else |files|;
        var batch := files[done..next];
        AttachInBatches(old(records), kinds, from, to, Elements(files[..done]), Elements(batch), keep);
        assert files[..next] == files[..done] + batch;
        assert Elements(files[..next]) == Elements(files[..done]) + Elements(batch);
        records := Attach(records, kinds, from, to, Elements(batch), keep);
        done, batches := next, batches + 1;
      }
      r := Ok(());
    }

    /** The staged files split by whether the server already has their digest. */
    method Partition(order: seq<FileId>, staged: Staged, digests: map<FileId, Knowledge>)
      returns (copy: seq<FileId>, write: seq<FileId>)
      requires Lists(order, staged)
      ensures forall f :: f in copy <==> Unchanged(staged, digests, f)
      ensures forall f :: f in write <==> f in staged && !Unchanged(staged, digests, f)
      ensures |copy| + |write| == |order| && |copy| == Agreeing(order, staged, digests)
    {
      copy, write := [], [];
      for i := 0 to |order|
        invariant |copy| == Agreeing(order[..i], staged, digests)
        invariant forall f :: f in copy <==> f in order[..i] && Unchanged(staged, digests, f)
        invariant forall f :: f in write <==> f in order[..i] && !Unchanged(staged, digests, f)
        invariant |copy| + |write| == i
      {
        assert order[..i + 1] == order[..i] + [order[i]] && order[..i + 1][..i] == order[..i];
        if order[i] in digests && digests[order[i]] == staged[order[i]] {
          copy := copy + [order[i]];
        } else {
          write := write + [order[i]];
        }
      }
      assert order[..|order|] == order;
    }

    /** Copies `files` from the active build into the pending one, keeping every
        build a reader may be pinned to. */
    method CopyUnchanged(files: seq<FileId>, failAfter: Option<nat>) returns (r: Result<(), Conflict>)
      requires Logged() && doc.active.Some? && doc.pending.Some?
      modifies `records, `worlds, `events
      ensures Continues(old(worlds), old(events))
      ensures r.Ok? ==> records == Attach(old(records), BASE_KINDS, doc.active.value, doc.pending.value,
                                          Elements(files), Pinned(doc))
      ensures failAfter.None? ==> r.Ok?
    {
      var from, to := doc.active.value, doc.pending.value;
      var keep := {from} + RetiredIds(doc.retired);
      assert keep == Pinned(doc);
      var done;
      r, done := CopyForwardIn(BASE_KINDS, from, to, files, keep, failAfter);
      Log(CopyBase(Elements(files[..done])));
      assert files[..|files|] == files;
    }

    lemma ContinuesOn(
      ws: seq<World<M, Body>>, es: seq<Event<M, Body>>, wt: seq<World<M, Body>>, et: seq<Event<M, Body>>)
      requires ws <= wt && es <= et && NoPublication(et, |es|)
      requires Continues(wt, et)
      ensures Continues(ws, es)
    {
    }

    /** Writes the records of one file into the pending build. */
    method WriteFile(b: BuildId, f: FileId, k: Knowledge)
      requires Logged() && doc.pending == Some(b)
      requires forall p :: p in k.parts ==> p.0 in BASE_KINDS
      modifies `records, `worlds, `events
      ensures Continues(old(worlds), old(events))
      ensures records == Put(old(records), b, Docs(f, RecordsOf(f, k)))
    {
      records := Put(records, b, Docs(f, RecordsOf(f, k)));
      Log(WriteBase(Docs(f, RecordsOf(f, k))));
    }

    /** Writes the records of `files` into the pending build, file by file. */
    method WriteRecords(b: BuildId, staged: Staged, files: seq<FileId>, failAfter: Option<nat>)
      returns (r: Result<(), Conflict>)
      requires Logged() && doc.pending == Some(b)
      requires PartsAreOwned(staged) && forall f :: f in files ==> f in staged
      modifies `records, `worlds, `events
      ensures Continues(old(worlds), old(events))
      ensures r.Ok? ==> records == WriteFiles(old(records), b, BaseContents(staged), files)
      ensures failAfter.None? ==> r.Ok?
    {
      var i := 0;
      while i < |files|
        invariant i <= |files| && Continues(old(worlds), old(events))
        invariant records == WriteFiles(old(records), b, BaseContents(staged), files[..i])
      {
        if failAfter == Some(i) {
          return Err(Unreachable);
        }
        ghost var ws, es := worlds, events;
        WriteFile(b, files[i], staged[files[i]]);
        OneMoreFile(old(records), b, BaseContents(staged), files, i);
        ContinuesOn(old(worlds), old(events), ws, es);
        i := i + 1;
      }
      assert files[..|files|] == files;
      r := Ok(());
    }

    /** Copies the unchanged files forward and writes the others. */
    method WriteBuild(b: BuildId, staged: Staged, order: seq<FileId>, digests: map<FileId, Knowledge>, faults: Faults)
      returns (r: Result<(), Conflict>, copied: nat, written: nat)
      requires Logged() && doc.pending == Some(b)
      requires IsUnused(records, b) && PartsAreOwned(staged) && Lists(order, staged)
      requires digests != map[] ==> doc.active.Some?
      requires digests != map[] ==> FilesHold(records, doc.active.value, digests)
      modifies `records, `worlds, `events
      ensures Continues(old(worlds), old(events))
      ensures r.Ok? ==> Publishes(records, b, staged)
      ensures r.Ok? ==> copied + written == |order| && copied == Agreeing(order, staged, digests)
    {
      copied, written := 0, 0;
      var copy, write := Partition(order, staged, digests);
      if doc.active.Some? && copy != [] {
        r := CopyUnchanged(copy, faults.copyBatches);
        if r.Err? {
          return;
        }
      }
      r := WriteRecords(b, staged, write, faults.files);
      copied, written := |copy|, |write|;
      if r.Ok? {
        WrittenBuildHolds(old(records), doc.active, b, staged, digests, copy, write, Pinned(doc));
      }
    }

    /** Begins the fresh build `b`; the active build and what it shows stay as they are. */
    method BeginFresh(lease: Option<Lease>, b: BuildId) returns (r: Result<(), Conflict>)
      requires Valid() && b !in begun && b !in generations
      modifies `doc, `seqNo, `records, `attempt, `begun, `worlds, `events
      ensures Valid() && old(worlds) <= worlds && old(events) <= events
      ensures doc.active == old(doc).active
      ensures r.Ok? <==> CheckLease(old(doc), lease, now).Ok?
      ensures r.Ok? ==> doc.pending == Some(b) && attempt == Some(b) && IsUnused(records, b)
      ensures r.Err? ==> doc == old(doc) && records == old(records)
    {
      ghost var i := |worlds| - 1;
      assert IsUnused(records, b) by {
        RunKeepsInvariant(worlds, events, i);
        FreshBuildIsUnused(worlds[i], b);
      }
      r := BeginBuildWith(lease, b);
      if r.Ok? {
        attempt, begun := Some(b), begun + {b};
        Log(BeginNew(b));
        StillDescribes(worlds, events, i, published, contentDigest);
      }
    }

    /** Publishes the pending build, which holds `staged`. */
    method PublishStaged(lease: Option<Lease>, b: BuildId, staged: Staged, fault: PublishFault)
      returns (r: Result<(), Conflict>)
      requires Valid() && doc.pending == Some(b) && attempt == Some(b)
      requires Publishes(records, b, staged) && PartsAreOwned(staged)
      modifies `doc, `seqNo, `records, `contentDigest, `published, `worlds, `events
      ensures Valid() && old(worlds) <= worlds && old(events) <= events
      ensures r.Ok? ==> doc.active == Some(b)
      ensures if doc.active == Some(b) then published == staged
              else doc.active == old(doc).active && published == old(published)
    {
      RunKeepsInvariant(worlds, events, |worlds| - 1);
      ghost var outcome := PublishResult(doc, lease, b, now, fault).1;
      PublicationDescribes(published, contentDigest, Now(), b, staged, outcome);
      r := PublishBuildExt(lease, b, staged, fault);
      if !outcome.NotApplied? {
        published := staged;
      }
      Log(PublishPending(outcome));
    }

    /** Gives the attempted build up; what is published stays published. */
    method AbortAttempted(lease: Option<Lease>, b: BuildId)
      requires Valid() && attempt == Some(b)
      modifies `doc, `seqNo, `records, `worlds, `events
      ensures Valid() && old(worlds) <= worlds && old(events) <= events
      ensures doc.active == old(doc).active
      ensures old(doc).active != Some(b) && CheckLease(old(doc), lease, now).Ok? ==>
        doc.pending != Some(b) && ShowsNothing(records, b)
      ensures CheckLease(old(doc), lease, now).Err? ==> doc == old(doc)
      ensures CheckLease(doc, lease, now).Ok? <==> CheckLease(old(doc), lease, now).Ok?
    {
      ghost var i := |worlds| - 1;
      ghost var w := Now();
      var r := AbortBuildWith(lease, b);
      if r.Ok? {
        Log(AbortAttempt);
        StillDescribes(worlds, events, i, published, contentDigest);
      }
    }

    /** A build that was never begun is not the active one. */
    lemma NotYetActive(b: BuildId)
      requires Logged() && b !in begun && b !in generations
      ensures doc.active != Some(b)
    {
      RunKeepsInvariant(worlds, events, |worlds| - 1);
    }

    /** The digests of the active build; none for a full rewrite. */
    method ServerDigests(active: Option<BuildId>, full: bool) returns (digests: map<FileId, Knowledge>)
      requires Consistent() && active == doc.active
      ensures digests == if full || active == None then map[] else published
    {
      digests := map[];
      if active.Some? && !full {
        digests := BuildFileDigests(active.value);
        DigestsAreStaged(records, active.value, published, digests);
      }
    }

    /** Publishes a staged build: nothing when the server already has exactly
        this content, otherwise unchanged files are copied forward and the
        others written, and a failed attempt is aborted. Afterwards the active
        build shows exactly the staged knowledge, or (only on failure) it is
        still the previous build showing what it showed. */
    method PublishFromStore(
      lease: Option<Lease>, b: BuildId, staged: Staged, order: seq<FileId>, full: bool, faults: Faults)
      returns (r: Result<Report, Conflict>)
      requires Valid() && b !in begun && b !in generations
      requires PartsAreOwned(staged) && Lists(order, staged)
      modifies this
      ensures Valid() && old(worlds) <= worlds && old(events) <= events
      ensures r.Ok? ==> doc.active == r.value.build && doc.active.Some? && Publishes(records, doc.active.value, staged)
      ensures r.Ok? ==> r.value.published == (r.value.build == Some(b))
      ensures r.Ok? ==>
        (r.value.published <==> full || old(doc).active == None || old(contentDigest) != Some(staged))
      ensures r.Ok? && r.value.published ==> r.value.copied + r.value.written == r.value.files == |order|
      ensures r.Ok? && r.value.published ==>
        r.value.copied == if full || old(doc).active == None then 0 else Agreeing(order, staged, old(published))
      ensures r.Err? && doc.active != Some(b) && CheckLease(doc, lease, now).Ok? ==>
        doc.pending != Some(b) && ShowsNothing(records, b)
      ensures r.Ok? && !r.value.published ==> doc == old(doc) && records == old(records)
      ensures r.Err? && doc.active == Some(b) ==> Publishes(records, b, staged)
      ensures r.Err? && doc.active != Some(b) ==> doc.active == old(doc).active && published == old(published)
    {
      var state := SourceState();
      var active := state.doc.active;
      NotYetActive(b);
      if active.Some? && contentDigest == Some(staged) && !full {
        return Ok(Report(active, false, |order|, 0, 0));
      }
      var digests := ServerDigests(active, full);
      NothingAgrees(order, staged);
      r := Attempt(lease, b, staged, order, digests, faults);
    }

    /** Begins, writes and publishes the build; a failed attempt is aborted, and
        nothing is left of it if the lease is still held. */
    method Attempt(
      lease: Option<Lease>, b: BuildId, staged: Staged, order: seq<FileId>, digests: map<FileId, Knowledge>,
      faults: Faults) returns (r: Result<Report, Conflict>)
      requires Valid() && b !in begun && b !in generations
      requires PartsAreOwned(staged) && Lists(order, staged)
      requires digests != map[] ==> doc.active.Some? && digests == published
      modifies this
      ensures Valid() && old(worlds) <= worlds && old(events) <= events
      ensures r.Ok? ==> r.value.build == doc.active == Some(b) && published == staged && r.value.published
      ensures r.Ok? ==> r.value.copied + r.value.written == r.value.files == |order|
      ensures r.Ok? ==> r.value.copied == Agreeing(order, staged, digests)
      ensures if doc.active == Some(b) then published == staged
              else doc.active == old(doc).active && published == old(published)
      ensures r.Err? && doc.active != Some(b) && CheckLease(doc, lease, now).Ok? ==>
        doc.pending != Some(b) && ShowsNothing(records, b)
    {
      NotYetActive(b);
      var began := BeginFresh(lease, b);
      if began.Err? {
        return Err(began.error);
      }
      r := WriteAndPublish(lease, b, staged, order, digests, faults);
      if r.Err? {
        AbortAttempted(lease, b);
      }
    }

    lemma PendingIsNotActive()
      requires Logged() && doc.pending.Some?
      ensures doc.pending != doc.active
    {
      RunKeepsInvariant(worlds, events, |worlds| - 1);
    }

    /** Writes the begun build next to the active one, which stays as it is. */
    method StageBuild(b: BuildId, staged: Staged, order: seq<FileId>, digests: map<FileId, Knowledge>, faults: Faults)
      returns (r: Result<(), Conflict>, copied: nat, written: nat)
      requires Valid() && doc.pending == Some(b)
      requires IsUnused(records, b) && PartsAreOwned(staged) && Lists(order, staged)
      requires digests != map[] ==> doc.active.Some? && digests == published
      modifies `records, `worlds, `events
      ensures Valid() && old(worlds) <= worlds && old(events) <= events
      ensures r.Ok? ==> Publishes(records, b, staged)
      ensures r.Ok? ==> copied + written == |order| && copied == Agreeing(order, staged, digests)
      ensures doc == old(doc)
    {
      ghost var i := |worlds| - 1;
      if digests != map[] {
        PublishedFilesHold(records, doc.active.value, published);
      }
      r, copied, written := WriteBuild(b, staged, order, digests, faults);
      StillDescribes(worlds, events, i, published, contentDigest);
    }

    /** Writes the begun build and publishes it. */
    method WriteAndPublish(
      lease: Option<Lease>, b: BuildId, staged: Staged, order: seq<FileId>, digests: map<FileId, Knowledge>,
      faults: Faults) returns (r: Result<Report, Conflict>)
      requires Valid() && doc.pending == Some(b) && attempt == Some(b)
      requires IsUnused(records, b) && PartsAreOwned(staged) && Lists(order, staged)
      requires digests != map[] ==> doc.active.Some? && digests == published
      modifies this
      ensures Valid() && old(worlds) <= worlds && old(events) <= events && attempt == old(attempt)
      ensures r.Ok? ==> r.value.build == doc.active == Some(b) && published == staged && r.value.published
      ensures r.Ok? ==> r.value.copied + r.value.written == r.value.files == |order|
      ensures r.Ok? ==> r.value.copied == Agreeing(order, staged, digests)
      ensures if doc.active == Some(b) then published == staged
              else doc.active == old(doc).active && published == old(published)
    {
      PendingIsNotActive();
      var outcome, copied, written := StageBuild(b, staged, order, digests, faults);
      Wait(faults.elapsed);
      if outcome.Ok? {
        outcome := PublishStaged(lease, b, staged, faults.publish);
      }
      r := if outcome.Err? then Err(outcome.error) else Ok(Report(Some(b), true, |order|, copied, written));
    }

    /** Whatever this backend did since step `i` of its run, a reader pinned to
        the build that was active then sees the same records within the grace period. */
    lemma PinnedReaderIsSafe(i: nat, b: BuildId)
      requires Logged() && i < |worlds| && worlds[i].doc.active == Some(b)
      requires now < worlds[i].now + grace
      ensures View(records, b) == View(worlds[i].records, b)
    {
      ClockNeverRunsBack(worlds, events, i, |worlds| - 1);
      PinnedReaderKeepsView(worlds, events, i, |worlds| - 1, b);
    }
  }
}
