/** Without a lease the two reads of a publication are not protected: a
    publication can replace a version whose pending build is another one. */
module UnfencedPublish {
  import opened Wrappers
  import opened StateDocument
  import opened Interleaving
  import opened Fencing
  import opened GraphFencing

  // ---- when the pending build is still the one that was checked --------------------------

  /** The writes that set the pending build. */
  predicate MovesPending<M>(c: Commit<M>)
  {
    c.req.Patch? && (c.req.op.Begin? || c.req.op.Publish? || c.req.op.Abort?)
  }

  /** No build was begun, published or aborted by the commits `j` to `k`. */
  ghost predicate NoneMoves<M>(log: seq<Commit<M>>, j: nat, k: nat)
    requires k <= |log|
  {
    forall m :: j <= m < k ==> !MovesPending(log[m])
  }

  /** Commit `m` is the last one of `j` to `k` that set the pending build, and it began `b`. */
  ghost predicate LastBegins<M>(log: seq<Commit<M>>, j: nat, k: nat, m: nat, b: BuildId)
    requires k <= |log|
  {
    j <= m < k && log[m].req.Patch? && log[m].req.op == Begin(b) && NoneMoves(log, m + 1, k)
  }

  ghost predicate LeftPending<M>(log: seq<Commit<M>>, j: nat, k: nat, b: BuildId)
    requires k <= |log|
  {
    NoneMoves(log, j, k) || exists m :: LastBegins(log, j, k, m, b)
  }

  lemma OneCommitMoves<M>(initial: Doc<M>, log: seq<Commit<M>>, m: nat)
    requires ValidLog(initial, log) && m < |log|
    ensures DocAt(initial, log, m + 1).pending ==
      if !MovesPending(log[m]) then DocAt(initial, log, m).pending
      else if log[m].req.op.Begin? then Some(log[m].req.op.build) else None
  {
    assert IsChained(initial, log, m) && IsAttributed(log, m);
  }

  lemma LastStays<M>(log: seq<Commit<M>>, j: nat, k: nat, b: BuildId)
    requires j < k <= |log|
    ensures LeftPending(log, j, k, b) <==>
      if MovesPending(log[k - 1]) then log[k - 1].req.op == Begin(b) else LeftPending(log, j, k - 1, b)
  {
    if MovesPending(log[k - 1]) {
      if log[k - 1].req.op == Begin(b) { assert LastBegins(log, j, k, k - 1, b); }
    } else {
      var last := k - 1;
      if m :| LastBegins(log, j, k, m, b) { assert LastBegins(log, j, last, m, b); }
      if m :| LastBegins(log, j, last, m, b) { assert LastBegins(log, j, k, m, b); }
    }
  }

  /** What was pending stays so exactly when nothing moved it, or the last move began it again. */
  lemma {:induction false} PendingStaysIff<M>(initial: Doc<M>, log: seq<Commit<M>>, j: nat, k: nat, b: BuildId)
    requires ValidLog(initial, log) && j <= k <= |log| && DocAt(initial, log, j).pending == Some(b)
    ensures DocAt(initial, log, k).pending == Some(b) <==> LeftPending(log, j, k, b)
    decreases k - j
  {
    if j < k {
      PendingStaysIff(initial, log, j, k - 1, b);
      OneCommitMoves(initial, log, k - 1);
      LastStays(log, j, k, b);
    }
  }

  /** A publication, under a lease or not, replaces a version whose pending build
      it publishes if and only if between its two reads no build was begun,
      published or aborted, or the last of those began the same build. */
  lemma PublishesPendingIff<M>(initial: Doc<M>, log: seq<Commit<M>>, k: nat)
    requires ValidLog(initial, log) && k < |log| && log[k].req.Patch? && log[k].req.op.Publish?
    ensures log[k].first.Some? && log[k].first.value.snap.seqNo <= k
    ensures var c := log[k]; var b := c.req.op.build;
      c.before.pending == Some(b) <==> LeftPending(log, c.first.value.snap.seqNo, k, b)
  {
    var c := log[k];
    assert IsChained(initial, log, k) && HasFirstRead(initial, log, k);
    var f := c.first.value;
    assert FirstRead(f.kind, f.snap.doc, c.req.lease, f.at) == Ok(c.req.op);
    PendingStaysIff(initial, log, f.snap.seqNo, k, c.req.op.build);
  }

  // ---- when the retired list is the decision about the builds it replaces ------------------

  ghost predicate NonePublishes<M>(log: seq<Commit<M>>, j: nat, k: nat)
    requires k <= |log|
  {
    forall m :: j <= m < k ==> !(log[m].req.Patch? && log[m].req.op.Publish?)
  }

  /** `b` is the active build or a retired one. */
  ghost predicate Names<M>(doc: Doc<M>, b: BuildId)
  {
    doc.active == Some(b) || exists e :: e in doc.retired && e.id == b
  }

  /** Build ids are new: none is published twice, or was there from the start. */
  ghost predicate BuildsAreNew<M>(initial: Doc<M>, log: seq<Commit<M>>)
  {
    forall m, b :: 0 <= m < |log| && Publishes(log[m], b) ==> !PublishedBefore(log, m, b) && !Names(initial, b)
  }

  lemma OneCommitPublishes<M>(initial: Doc<M>, log: seq<Commit<M>>, m: nat)
    requires ValidLog(initial, log) && m < |log|
    ensures var before := DocAt(initial, log, m); var after := DocAt(initial, log, m + 1);
      if log[m].req.Patch? && log[m].req.op.Publish?
      then after.active == Some(log[m].req.op.build) && after.retired == log[m].req.op.keep
      else after.active == before.active && after.retired == before.retired
  {
    assert IsChained(initial, log, m) && IsAttributed(log, m);
  }

  lemma {:induction false} BuildsStay<M>(initial: Doc<M>, log: seq<Commit<M>>, j: nat, k: nat)
    requires ValidLog(initial, log) && j <= k <= |log| && NonePublishes(log, j, k)
    ensures DocAt(initial, log, k).active == DocAt(initial, log, j).active
    ensures DocAt(initial, log, k).retired == DocAt(initial, log, j).retired
    decreases k - j
  {
    if j < k {
      BuildsStay(initial, log, j, k - 1);
      OneCommitPublishes(initial, log, k - 1);
    }
  }

  lemma PublishedLater<M>(log: seq<Commit<M>>, i: nat, k: nat, b: BuildId)
    requires i <= k <= |log| && PublishedBefore(log, i, b)
    ensures PublishedBefore(log, k, b)
  {
  }

  /** Every active or retired build was there from the start or published earlier. */
  lemma {:induction false} NamedWasPublished<M>(initial: Doc<M>, log: seq<Commit<M>>, i: nat, b: BuildId)
    requires ValidLog(initial, log) && i <= |log| && Names(DocAt(initial, log, i), b)
    ensures Names(initial, b) || PublishedBefore(log, i, b)
    decreases i
  {
    if i > 0 {
      OneCommitPublishes(initial, log, i - 1);
      var c := log[i - 1];
      if c.req.Patch? && c.req.op.Publish? {
        if c.req.op.build == b {
          assert Publishes(log[i - 1], b);
        } else {
          assert HasFirstRead(initial, log, i - 1);
          var f := c.first.value;
          assert FirstRead(f.kind, f.snap.doc, c.req.lease, f.at) == Ok(c.req.op);
          NamedWasPublished(initial, log, f.snap.seqNo, b);
          if PublishedBefore(log, f.snap.seqNo, b) { PublishedLater(log, f.snap.seqNo, i, b); }
        }
      } else {
        NamedWasPublished(initial, log, i - 1, b);
        if PublishedBefore(log, i - 1, b) { PublishedLater(log, i - 1, i, b); }
      }
    }
  }

  lemma {:induction false} LastPublication<M>(initial: Doc<M>, log: seq<Commit<M>>, j: nat, k: nat) returns (m: nat)
    requires ValidLog(initial, log) && j <= k <= |log| && !NonePublishes(log, j, k)
    ensures j <= m < k && log[m].req.Patch? && log[m].req.op.Publish?
    ensures DocAt(initial, log, k).active == Some(log[m].req.op.build)
    decreases k - j
  {
    OneCommitPublishes(initial, log, k - 1);
    if log[k - 1].req.Patch? && log[k - 1].req.op.Publish? {
      m := k - 1;
    } else {
      m := LastPublication(initial, log, j, k - 1);
    }
  }

  /** A build published since the first read is up for retirement, but the
      decision was made without it. */
  lemma MissesThePublished<M>(first: Doc<M>, c: Commit<M>, b: BuildId, other: BuildId, at: Time, grace: nat)
    requires c.after.retired == Retire(first.retired, first.active, b, at, grace) && grace > 0
    requires c.before.active == Some(other) && other != b && !Names(first, other)
    ensures !KeepsInGrace(c.before, c.after, b, at, grace)
  {
    var e := Retired(other, at);
    assert UpForRetirement(c.before, b, at, e) && InGrace(e.at, at, grace);
    assert e !in c.after.retired;
  }

  /** A publication's retired list is the grace decision about the builds it
      replaces if and only if no build was published between its two reads (or no
      grace is granted at all). */
  lemma RetiresRightlyIff<M>(initial: Doc<M>, log: seq<Commit<M>>, k: nat) returns (at: Time, grace: nat)
    requires ValidLog(initial, log) && k < |log| && log[k].req.Patch? && log[k].req.op.Publish?
    requires BuildsAreNew(initial, log)
    ensures PublishesWith(log[k], log[k].req.op.build, at, grace) && log[k].first.value.snap.seqNo <= k
    ensures var c := log[k];
      KeepsInGrace(c.before, c.after, c.req.op.build, at, grace)
      <==> grace == 0 || NonePublishes(log, c.first.value.snap.seqNo, k)
  {
    var c := log[k];
    var b := c.req.op.build;
    assert IsChained(initial, log, k) && HasFirstRead(initial, log, k);
    var f := c.first.value;
    assert FirstRead(f.kind, f.snap.doc, c.req.lease, f.at) == Ok(c.req.op);
    at, grace := f.at, f.kind.grace;
    if NonePublishes(log, f.snap.seqNo, k) {
      BuildsStay(initial, log, f.snap.seqNo, k);
      RetireKeepsInGrace(c.before, c.after, b, at, grace);
    } else if grace > 0 {
      var m := LastPublication(initial, log, f.snap.seqNo, k);
      var other := log[m].req.op.build;
      NeverNamedBefore(initial, log, f.snap.seqNo, m, k);
      MissesThePublished(f.snap.doc, c, b, other, at, grace);
    } else {
      NothingInGrace(c.before, c.after, b, at);
    }
  }

  lemma NothingInGrace<M>(before: Doc<M>, after: Doc<M>, b: BuildId, at: Time)
    requires forall e :: e !in after.retired
    ensures KeepsInGrace(before, after, b, at, 0)
  {
  }

  /** A build published between the two reads is none the first read could name, and not the one published last. */
  lemma NeverNamedBefore<M>(initial: Doc<M>, log: seq<Commit<M>>, j: nat, m: nat, k: nat)
    requires ValidLog(initial, log) && j <= m < k < |log| && BuildsAreNew(initial, log)
    requires log[m].req.Patch? && log[m].req.op.Publish? && log[k].req.Patch? && log[k].req.op.Publish?
    ensures log[m].req.op.build != log[k].req.op.build
    ensures !Names(DocAt(initial, log, j), log[m].req.op.build)
  {
    var other := log[m].req.op.build;
    assert Publishes(log[m], other);
    if log[k].req.op.build == other { assert Publishes(log[k], other) && PublishedBefore(log, k, other); }
    if Names(DocAt(initial, log, j), other) {
      NamedWasPublished(initial, log, j, other);
      PublishedLater(log, j, m, other);
    }
  }

  // ---- a run in which the check is overtaken ---------------------------------------------------

  function EmptyGraph(): GraphRecord<string>
  {
    GraphRecord(GraphPending, None, None, None, None, None, [])
  }

  /** Build "b1" was begun, nobody holds a lease. */
  function Begun(): Doc<string>
  {
    Doc(BuildingBase, None, Some("b1"), "", 0, None, [], EmptyGraph())
  }

  function Thread(main: Pc<string>): Worker<string>
  {
    Worker(None, main, Idle)
  }

  function Start(): World<string>
  {
    World(Versioned(Begun(), 0, 0), 0, map[0 := Thread(Idle), 1 := Thread(Idle)], [])
  }

  /** After worker 0 checked that "b1" is pending and worker 1 began "b2". */
  function Overtaken(): World<string>
  {
    var begun := First(PublishBuild("b1", 0), Versioned(Begun(), 0, 0), 0);
    var next := Begun().(pending := Some("b2"));
    World(Versioned(next, 1, 0), 0,
          map[0 := Thread(Between(Publish("b1", []), None, begun)), 1 := Thread(Idle)],
          [Commit(1, true, Patch(Begin("b2"), None), Begun(), next,
                  Some(First(BeginBuild("b2"), Versioned(Begun(), 0, 0), 0)), 0, 0)])
  }

  lemma Extend(worlds: seq<World<string>>, events: seq<Event<string>>, e: Event<string>)
    returns (worlds': seq<World<string>>, events': seq<Event<string>>)
    requires IsRun(worlds, events) && Enabled(worlds[|worlds| - 1], e)
    ensures IsRun(worlds', events') && |worlds'| == |worlds| + 1
    ensures worlds'[|worlds|] == Next(worlds[|worlds| - 1], e)
  {
    worlds', events' := worlds + [Next(worlds[|worlds| - 1], e)], events + [e];
  }

  /** Worker 0 finds "b1" pending and is about to read again. */
  lemma FirstCheckPasses() returns (worlds: seq<World<string>>, events: seq<Event<string>>)
    ensures IsRun(worlds, events) && |worlds| == 3
    ensures worlds[2] == Start().(workers := map[0 := Overtaken().workers[0], 1 := Thread(Idle)])
  {
    worlds, events := [Start()], [];
    worlds, events := Extend(worlds, events, Read(0, true, Twice(PublishBuild("b1", 0), None)));
    worlds, events := Extend(worlds, events, Decide(0, true));
    assert Retire([], None, "b1", 0, 0) == [];
    assert worlds[2].workers == map[0 := Overtaken().workers[0], 1 := Thread(Idle)];
  }

  /** Worker 1 begins "b2" in between. */
  lemma AnotherBuildBegins() returns (worlds: seq<World<string>>, events: seq<Event<string>>)
    ensures IsRun(worlds, events) && |worlds| == 8 && worlds[7] == Overtaken()
  {
    worlds, events := FirstCheckPasses();
    var zero := Overtaken().workers[0];
    worlds, events := Extend(worlds, events, Read(1, true, Twice(BeginBuild("b2"), None)));
    assert worlds[3].workers == map[0 := zero, 1 := worlds[3].workers[1]];
    worlds, events := Extend(worlds, events, Decide(1, true));
    assert worlds[4].workers == map[0 := zero, 1 := worlds[4].workers[1]];
    worlds, events := Extend(worlds, events, ReadAgain(1));
    assert worlds[5].workers == map[0 := zero, 1 := worlds[5].workers[1]];
    worlds, events := Extend(worlds, events, Decide(1, true));
    assert worlds[6].workers == map[0 := zero, 1 := worlds[6].workers[1]];
    worlds, events := Extend(worlds, events, Write(1, true, false));
    assert worlds[7].workers == Overtaken().workers;
  }

  /** An unfenced publication commits "b1" over a version whose pending build is
      "b2": the active build was not the pending one, and "b2" is forgotten. */
  lemma UnfencedPublicationOverwrites() returns (worlds: seq<World<string>>, events: seq<Event<string>>)
    ensures IsRun(worlds, events) && |worlds| == 11
    ensures |worlds[10].log| == 2
    ensures worlds[10].log[1].before.pending == Some("b2")
    ensures worlds[10].stored.doc.active == Some("b1") && worlds[10].stored.doc.pending == None
  {
    worlds, events := AnotherBuildBegins();
    worlds, events := Extend(worlds, events, ReadAgain(0));
    worlds, events := Extend(worlds, events, Decide(0, true));
    worlds, events := Extend(worlds, events, Write(0, true, false));
  }
}
