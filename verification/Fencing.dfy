/** What fencing guarantees about every commit log an interleaving can produce. */
module Fencing {
  import opened Wrappers
  import opened StateDocument
  import opened Interleaving

  // ---- tokens -------------------------------------------------------------------------

  lemma CommitMovesToken<M>(initial: Doc<M>, log: seq<Commit<M>>, k: nat)
    requires ValidLog(initial, log) && k < |log|
    ensures log[k].after.token == log[k].before.token + if log[k].req.Acquire? then 1 else 0
  {
    assert IsChained(initial, log, k) && IsAttributed(log, k);
  }

  /** The fencing token never decreases. */
  lemma {:induction false} TokensNeverDecrease<M>(initial: Doc<M>, log: seq<Commit<M>>, i: nat, j: nat)
    requires ValidLog(initial, log) && i <= j <= |log|
    ensures DocAt(initial, log, i).token <= DocAt(initial, log, j).token
    decreases j - i
  {
    if i < j {
      TokensNeverDecrease(initial, log, i, j - 1);
      assert IsChained(initial, log, j - 1);
      CommitMovesToken(initial, log, j - 1);
    }
  }

  predicate FencedBy<M>(c: Commit<M>, l: Lease)
  {
    c.req.Patch? && c.req.lease.Some? && c.req.lease.value.owner == l.owner && c.req.lease.value.token == l.token
  }

  /** A committed fenced write lands on a version its own lease holds, live when it was decided. */
  lemma FencedWriteHoldsLease<M>(initial: Doc<M>, log: seq<Commit<M>>, k: nat, l: Lease)
    requires ValidLog(initial, log) && k < |log| && FencedBy(log[k], l)
    ensures DocAt(initial, log, k).owner == l.owner && DocAt(initial, log, k).token == l.token
    ensures DocAt(initial, log, k).LiveAt(log[k].decidedAt)
  {
    assert IsChained(initial, log, k);
  }

  /** Once a write fenced by token t commits, no write fenced by a smaller token ever commits. */
  lemma NoSmallerTokenAfter<M>(initial: Doc<M>, log: seq<Commit<M>>, i: nat, j: nat, l: Lease, m: Lease)
    requires ValidLog(initial, log) && i < j < |log|
    requires FencedBy(log[i], l) && FencedBy(log[j], m)
    ensures l.token <= m.token
    ensures (exists g :: i < g < j && log[g].req.Acquire?) ==> l.token < m.token
  {
    FencedWriteHoldsLease(initial, log, i, l);
    FencedWriteHoldsLease(initial, log, j, m);
    TokensNeverDecrease(initial, log, i, j);
    if g :| i < g < j && log[g].req.Acquire? {
      TokensNeverDecrease(initial, log, i, g);
      assert IsChained(initial, log, g);
      CommitMovesToken(initial, log, g);
      TokensNeverDecrease(initial, log, g + 1, j);
    }
  }

  lemma GrantsDiffer<M>(initial: Doc<M>, log: seq<Commit<M>>, g: nat, h: nat)
    requires ValidLog(initial, log) && g < h < |log|
    requires log[g].req.Acquire? && log[h].req.Acquire?
    ensures log[g].after.token < log[h].after.token
  {
    assert IsChained(initial, log, h);
    CommitMovesToken(initial, log, h);
    TokensNeverDecrease(initial, log, g + 1, h);
  }

  /** Each token belongs to one worker. */
  lemma OneWorkerPerToken<M>(initial: Doc<M>, log: seq<Commit<M>>, i: nat, j: nat, l: Lease)
    requires ValidLog(initial, log) && i < |log| && j < |log|
    requires FencedBy(log[i], l) && FencedBy(log[j], l)
    ensures log[i].worker == log[j].worker
    ensures l.owner != ""
  {
    assert IsAttributed(log, i) && IsAttributed(log, j);
    var g :| 0 <= g < i && GrantedBy(log[g], log[i].worker, log[i].req.lease.value);
    var h :| 0 <= h < j && GrantedBy(log[h], log[j].worker, log[j].req.lease.value);
    if g < h { GrantsDiffer(initial, log, g, h); }
    if h < g { GrantsDiffer(initial, log, h, g); }
  }

  // ---- a lost lease stays lost --------------------------------------------------------------

  /** The lease no longer covers a write decided at `t` or later. */
  predicate Lost<M>(l: Lease, doc: Doc<M>, t: Time)
  {
    doc.token > l.token || (doc.token == l.token && (doc.owner != l.owner || !doc.LiveAt(t)))
  }

  lemma LostStaysOneCommit<M>(initial: Doc<M>, log: seq<Commit<M>>, l: Lease, k: nat, t: Time)
    requires ValidLog(initial, log) && k < |log| && l.owner != ""
    requires Lost(l, DocAt(initial, log, k), t) && t <= log[k].decidedAt
    ensures Lost(l, DocAt(initial, log, k + 1), t)
  {
    assert IsChained(initial, log, k) && IsAttributed(log, k);
    CommitMovesToken(initial, log, k);
  }

  lemma {:induction false} LostStays<M>(initial: Doc<M>, log: seq<Commit<M>>, l: Lease, k: nat, m: nat, t: Time)
    requires ValidLog(initial, log) && k <= m <= |log| && l.owner != ""
    requires Lost(l, DocAt(initial, log, k), t)
    requires k < m ==> t <= log[k].decidedAt
    ensures Lost(l, DocAt(initial, log, m), t)
    decreases m - k
  {
    if k < m {
      LostStaysOneCommit(initial, log, l, k, t);
      assert IsChained(initial, log, k);
      if k + 1 < m {
        assert IsChained(initial, log, k + 1);
      }
      LostStays(initial, log, l, k + 1, m, t);
    }
  }

  /** A lease that passes a check on version `k` was the only writer since it
      passed one on version `j`. */
  lemma OnlyHolderBetween<M>(
    initial: Doc<M>, log: seq<Commit<M>>, l: Lease, j: nat, m: nat, k: nat, at: Time, t: Time)
    requires ValidLog(initial, log) && j <= m < k <= |log| && l.owner != ""
    requires CheckLease(DocAt(initial, log, j), Some(l), at).Ok?
    requires CheckLease(DocAt(initial, log, k), Some(l), t).Ok? && TimeAt(log, k) <= t
    ensures FencedBy(log[m], l)
  {
    var c := log[m];
    assert IsChained(initial, log, m) && IsAttributed(log, m);
    TokensNeverDecrease(initial, log, j, m);
    TokensNeverDecrease(initial, log, m, m + 1);
    TokensNeverDecrease(initial, log, m + 1, k);
    CommitMovesToken(initial, log, m);
    assert !c.req.Acquire? && c.before.token == l.token;
    DecidedBefore(initial, log, m, k);
    if !FencedBy(c, l) {
      assert Lost(l, c.before, c.decidedAt);
      LostStays(initial, log, l, m, k, c.decidedAt);
    }
  }

  lemma {:induction false} DecidedBefore<M>(initial: Doc<M>, log: seq<Commit<M>>, m: nat, k: nat)
    requires ValidLog(initial, log) && m < k <= |log|
    ensures log[m].decidedAt <= TimeAt(log, k)
    decreases k - m
  {
    assert IsChained(initial, log, m);
    if m + 1 < k {
      DecidedBefore(initial, log, m + 1, k);
      assert IsChained(initial, log, m + 1);
    }
  }

  /** Between two commits fenced by one token nothing else commits: no grant, no
      unfenced write, no other worker. */
  lemma FencedRunsAreExclusive<M>(initial: Doc<M>, log: seq<Commit<M>>, i: nat, m: nat, j: nat, l: Lease)
    requires ValidLog(initial, log) && i < m < j < |log|
    requires FencedBy(log[i], l) && FencedBy(log[j], l)
    ensures FencedBy(log[m], l) && log[m].worker == log[i].worker
  {
    OneWorkerPerToken(initial, log, i, j, l);
    assert IsChained(initial, log, i) && IsChained(initial, log, j);
    OnlyHolderBetween(initial, log, l, i, m, j, log[i].decidedAt, log[j].decidedAt);
    OneWorkerPerToken(initial, log, i, m, l);
  }

  // ---- two-read operations ---------------------------------------------------------------------

  ghost predicate SameButExpiry<M>(a: Doc<M>, b: Doc<M>)
  {
    a == b.(expires := a.expires)
  }

  lemma HeartbeatMovesExpiry<M>(initial: Doc<M>, log: seq<Commit<M>>, m: nat)
    requires ValidLog(initial, log) && m < |log| && !log[m].main
    ensures SameButExpiry(DocAt(initial, log, m + 1), DocAt(initial, log, m))
  {
    assert IsChained(initial, log, m) && IsAttributed(log, m);
  }

  lemma {:induction false} HeartbeatsMoveExpiry<M>(initial: Doc<M>, log: seq<Commit<M>>, j: nat, k: nat)
    requires ValidLog(initial, log) && j <= k <= |log|
    requires forall m :: j <= m < k ==> !log[m].main
    ensures SameButExpiry(DocAt(initial, log, k), DocAt(initial, log, j))
    decreases k - j
  {
    if j < k {
      HeartbeatsMoveExpiry(initial, log, j, k - 1);
      HeartbeatMovesExpiry(initial, log, k - 1);
    }
  }

  /** Under a lease the second read of begin, publish and abort finds what the
      first one found, whatever ran in between: only the expiry may differ. */
  lemma FencedReadsAgree<M>(initial: Doc<M>, log: seq<Commit<M>>, k: nat)
    requires ValidLog(initial, log) && k < |log|
    requires log[k].first.Some? && log[k].req.Patch? && log[k].req.lease.Some?
    ensures SameButExpiry(log[k].before, log[k].first.value.snap.doc)
  {
    var c := log[k];
    var f := c.first.value;
    var l := c.req.lease.value;
    assert IsChained(initial, log, k) && HasFirstRead(initial, log, k);
    OneWorkerPerToken(initial, log, k, k, l);
    var j := f.snap.seqNo;
    forall m | j <= m < k
      ensures !log[m].main
    {
      OnlyHolderBetween(initial, log, l, j, m, k, f.at, c.decidedAt);
      OneWorkerPerToken(initial, log, m, k, l);
    }
    HeartbeatsMoveExpiry(initial, log, j, k);
  }

  /** An entry the publication of `next` over `doc` at `at` must decide about: a
      retired build, or the active one it replaces. */
  ghost predicate UpForRetirement<M>(doc: Doc<M>, next: BuildId, at: Time, e: Retired)
  {
    e in doc.retired || (doc.active.Some? && doc.active.value != next && e == Retired(doc.active.value, at))
  }

  /** The retired list after a publication keeps exactly the entries of the version
      it replaced, and the build it replaced, whose grace has not passed since then. */
  ghost predicate KeepsInGrace<M>(before: Doc<M>, after: Doc<M>, b: BuildId, at: Time, grace: nat)
  {
    forall e :: e in after.retired <==> UpForRetirement(before, b, at, e) && grace > 0 && at < e.at + grace
  }

  /** The commit is the publication of `b` that its worker asked for, decided
      with the clock and the grace of its own first read. */
  ghost predicate PublishesWith<M>(c: Commit<M>, b: BuildId, at: Time, grace: nat)
  {
    c.first.Some? && c.first.value.kind == PublishBuild(b, grace) && c.first.value.at == at
  }

  /** No build is dropped from the retired list without its grace decision. */
  lemma RetireKeepsInGrace<M>(before: Doc<M>, after: Doc<M>, b: BuildId, at: Time, grace: nat)
    requires after.retired == Retire(before.retired, before.active, b, at, grace)
    ensures KeepsInGrace(before, after, b, at, grace)
  {
    forall e
      ensures e in after.retired <==> UpForRetirement(before, b, at, e) && grace > 0 && at < e.at + grace
    {
      KeptUntilGraceEnds(before.retired, before.active, b, at, grace, e);
    }
  }

  /** A fenced publication makes `active` the build that was pending, and its
      retired list is the decision of its own grace about exactly the builds it replaces. */
  lemma FencedPublicationIsSound<M>(initial: Doc<M>, log: seq<Commit<M>>, k: nat) returns (at: Time, grace: nat)
    requires ValidLog(initial, log) && k < |log|
    requires log[k].req.Patch? && log[k].req.op.Publish? && log[k].req.lease.Some?
    ensures var c := log[k]; var b := c.req.op.build;
      && PublishesWith(c, b, at, grace) && at <= c.decidedAt
      && c.before.pending == Some(b) && c.after.active == Some(b) && c.after.pending == None
      && c.after.retired == Retire(c.before.retired, c.before.active, b, at, grace)
      && KeepsInGrace(c.before, c.after, b, at, grace)
  {
    var c := log[k];
    assert IsChained(initial, log, k) && HasFirstRead(initial, log, k);
    FencedReadsAgree(initial, log, k);
    var f := c.first.value;
    assert FirstRead(f.kind, f.snap.doc, c.req.lease, f.at) == Ok(c.req.op);
    at, grace := f.at, f.kind.grace;
    RetireKeepsInGrace(c.before, c.after, c.req.op.build, at, grace);
  }

  /** A fenced abort clears the very build it was asked to abort, never the active one. */
  lemma FencedAbortIsSound<M>(initial: Doc<M>, log: seq<Commit<M>>, k: nat)
    requires ValidLog(initial, log) && k < |log|
    requires log[k].req.Patch? && log[k].req.op.Abort? && log[k].req.lease.Some?
    ensures var c := log[k];
      c.first.Some? && c.first.value.kind.AbortBuild? &&
      c.before.pending == Some(c.first.value.kind.build) && c.before.active != Some(c.first.value.kind.build) &&
      c.after.active == c.before.active && c.after.retired == c.before.retired
  {
    assert IsChained(initial, log, k) && HasFirstRead(initial, log, k);
    FencedReadsAgree(initial, log, k);
    var c := log[k];
    assert FirstRead(c.first.value.kind, c.first.value.snap.doc, c.req.lease, c.first.value.at) == Ok(c.req.op);
  }

  // ---- the same, for every run of the interleaving ------------------------------------------------

  /** Every publication any interleaving of leased workers commits replaced a
      version whose pending build it published, and dropped exactly the builds
      whose grace was over. */
  lemma EveryFencedPublicationIsSound<M>(worlds: seq<World<M>>, events: seq<Event<M>>, i: nat, k: nat)
    returns (at: Time, grace: nat)
    requires IsRun(worlds, events) && i < |worlds| && k < |worlds[i].log|
    requires worlds[i].log[k].req.Patch? && worlds[i].log[k].req.op.Publish? && worlds[i].log[k].req.lease.Some?
    ensures var c := worlds[i].log[k]; var b := c.req.op.build;
      && PublishesWith(c, b, at, grace) && at <= c.decidedAt
      && c.before.pending == Some(b) && c.after.active == Some(b) && c.after.pending == None
      && c.after.retired == Retire(c.before.retired, c.before.active, b, at, grace)
      && KeepsInGrace(c.before, c.after, b, at, grace)
  {
    RunHasValidLog(worlds, events, i);
    at, grace := FencedPublicationIsSound(worlds[0].stored.doc, worlds[i].log, k);
  }

  /** In every run a fenced commit is never followed by one with a smaller
      token, and what lies between two commits of one token is its worker's own. */
  lemma EveryRunIsFenced<M>(worlds: seq<World<M>>, events: seq<Event<M>>, w: nat, i: nat, j: nat, l: Lease, m: Lease)
    requires IsRun(worlds, events) && w < |worlds| && i < j < |worlds[w].log|
    requires FencedBy(worlds[w].log[i], l) && FencedBy(worlds[w].log[j], m)
    ensures l.token <= m.token
    ensures l.token == m.token ==> forall n :: i < n < j ==>
      FencedBy(worlds[w].log[n], l) && worlds[w].log[n].worker == worlds[w].log[i].worker
  {
    var log := worlds[w].log;
    var initial := worlds[0].stored.doc;
    RunHasValidLog(worlds, events, w);
    NoSmallerTokenAfter(initial, log, i, j, l, m);
    if l.token == m.token {
      SameTokenSameOwner(initial, log, i, j, l, m);
      forall n | i < n < j
        ensures FencedBy(log[n], l) && log[n].worker == log[i].worker
      {
        FencedRunsAreExclusive(initial, log, i, n, j, l);
      }
    }
  }

  lemma SameTokenSameOwner<M>(initial: Doc<M>, log: seq<Commit<M>>, i: nat, j: nat, l: Lease, m: Lease)
    requires ValidLog(initial, log) && i < j < |log|
    requires FencedBy(log[i], l) && FencedBy(log[j], m) && l.token == m.token
    ensures l.owner == m.owner
  {
    assert IsAttributed(log, i) && IsAttributed(log, j);
    var g :| 0 <= g < i && GrantedBy(log[g], log[i].worker, log[i].req.lease.value);
    var h :| 0 <= h < j && GrantedBy(log[h], log[j].worker, log[j].req.lease.value);
    if g < h { GrantsDiffer(initial, log, g, h); }
    if h < g { GrantsDiffer(initial, log, h, g); }
  }
}
