/** Any number of workers (each an operation thread and a lease heartbeat)
    interleaving reads, decisions and compare-and-swap writes of one state
    document. */
module Interleaving {
  import opened Wrappers
  import opened StateDocument

  type WorkerId = nat

  /** A version of the document and when it was committed. */
  datatype Versioned<M> = Versioned(doc: Doc<M>, seqNo: nat, since: Time)

  datatype Request<M> =
    | Acquire(owner: string, ttl: nat)
    | Patch(op: Op<M>, lease: Option<Lease>)
    | Twice(kind: TwoRead, lease: Option<Lease>)

  /** The first read of a two-read operation. */
  datatype First<M> = First(kind: TwoRead, snap: Versioned<M>, at: Time)

  datatype Pc<M> =
    | Idle
    | HasRead(req: Request<M>, snap: Versioned<M>, first: Option<First<M>>)
    | Between(op: Op<M>, lease: Option<Lease>, started: First<M>)
    | Writing(req: Request<M>, snap: Versioned<M>, doc: Doc<M>, first: Option<First<M>>, decidedAt: Time)

  datatype Worker<M> = Worker(held: Option<Lease>, main: Pc<M>, beat: Pc<M>)

  /** A committed write. */
  datatype Commit<M> = Commit(
    worker: WorkerId, main: bool, req: Request<M>, before: Doc<M>, after: Doc<M>,
    first: Option<First<M>>, decidedAt: Time, at: Time)

  datatype World<M> = World(stored: Versioned<M>, now: Time, workers: map<WorkerId, Worker<M>>, log: seq<Commit<M>>)

  datatype Event<M> =
    | Tick(elapsed: nat)
    | Read(worker: WorkerId, main: bool, req: Request<M>)
    | Decide(worker: WorkerId, main: bool)
    | ReadAgain(worker: WorkerId)
    | Write(worker: WorkerId, main: bool, replyLost: bool)

  function PcOf<M>(w: Worker<M>, main: bool): Pc<M>
  {
    if main then w.main else w.beat
  }

  function WithPc<M>(w: Worker<M>, main: bool, pc: Pc<M>): Worker<M>
  {
    if main then w.(main := pc) else w.(beat := pc)
  }

  /** The document a request writes over the version it read. */
  function Decision<M>(req: Request<M>, doc: Doc<M>, now: Time): Result<Doc<M>, Conflict>
  {
    match req
    case Acquire(owner, ttl) => Grant(doc, owner, ttl, now)
    case Patch(op, lease) =>
      if CheckLease(doc, lease, now).Err? then Err(CheckLease(doc, lease, now).error) else Apply(op, doc, now)
    case Twice(_, _) => Err(Changed)
  }

  /** Requests a thread may start: the operation thread writes unfenced or
      under the lease it was granted, the heartbeat only renews that lease.
      Publish and Abort are reached only through a first read. */
  predicate Allowed<M>(w: Worker<M>, main: bool, req: Request<M>)
  {
    if main then
      match req
      case Acquire(owner, _) => owner != ""
      case Patch(op, lease) =>
        && (lease == None || lease == w.held)
        && !op.Publish? && !op.Abort? && !op.Begin?
        && (op.Renew? || op.Release? ==> lease.Some?)
      case Twice(_, lease) => lease == None || lease == w.held
    else
      w.held.Some? && req == Patch(Renew(w.held.value.ttl), w.held)
  }

  predicate Enabled<M>(w: World<M>, e: Event<M>)
  {
    match e
    case Tick(_) => true
    case Read(i, main, req) =>
      i in w.workers && PcOf(w.workers[i], main).Idle? && Allowed(w.workers[i], main, req)
    case Decide(i, main) => i in w.workers && PcOf(w.workers[i], main).HasRead?
    case ReadAgain(i) => i in w.workers && w.workers[i].main.Between?
    case Write(i, main, _) => i in w.workers && PcOf(w.workers[i], main).Writing?
  }

  /** Where a decision leads. */
  function Decided<M>(pc: Pc<M>, now: Time): Pc<M>
    requires pc.HasRead?
  {
    match pc.req
    case Twice(kind, lease) =>
      (match FirstRead(kind, pc.snap.doc, lease, now)
       case Ok(op) => Between(op, lease, First(kind, pc.snap, now))
       case Err(_) => Idle)
    case _ =>
      match Decision(pc.req, pc.snap.doc, now)
      case Ok(doc) => Writing(pc.req, pc.snap, doc, pc.first, now)
      case Err(_) => Idle
  }

  /** The lease a worker holds after a committed write whose reply arrived. */
  function HeldAfter<M>(held: Option<Lease>, req: Request<M>, doc: Doc<M>): Option<Lease>
  {
    if req.Acquire? then Some(Lease(req.owner, doc.token, req.ttl)) else held
  }

  function Next<M>(w: World<M>, e: Event<M>): World<M>
    requires Enabled(w, e)
  {
    match e
    case Tick(elapsed) => w.(now := w.now + elapsed)
    case Read(i, main, req) =>
      w.(workers := w.workers[i := WithPc(w.workers[i], main, HasRead(req, w.stored, None))])
    case Decide(i, main) =>
      w.(workers := w.workers[i := WithPc(w.workers[i], main, Decided(PcOf(w.workers[i], main), w.now))])
    case ReadAgain(i) =>
      var pc := w.workers[i].main;
      w.(workers := w.workers[i := WithPc(w.workers[i], true,
           HasRead(Patch(pc.op, pc.lease), w.stored, Some(pc.started)))])
    case Write(i, main, replyLost) =>
      var pc := PcOf(w.workers[i], main);
      var done := WithPc(w.workers[i], main, Idle);
      if pc.snap.seqNo != w.stored.seqNo then w.(workers := w.workers[i := done])
      else
        var worker := if replyLost then done else done.(held := HeldAfter(done.held, pc.req, pc.doc));
        World(Versioned(pc.doc, w.stored.seqNo + 1, w.now), w.now, w.workers[i := worker],
              w.log + [Commit(i, main, pc.req, w.stored.doc, pc.doc, pc.first, pc.decidedAt, w.now)])
  }

  /** Time may pass at any moment and changes nothing else. */
  lemma TimePasses<M>(w: World<M>, elapsed: nat)
    ensures Enabled(w, Tick(elapsed))
    ensures var after := Next(w, Tick(elapsed));
      after.now == w.now + elapsed && after.stored == w.stored && after.workers == w.workers && after.log == w.log
  {
  }

  /** A write is committed exactly if nothing else was since the version it read;
      a worker holds the lease it asked for only if the reply arrived. */
  lemma WriteMeans<M>(w: World<M>, i: WorkerId, main: bool, replyLost: bool)
    requires i in w.workers && (if main then w.workers[i].main.Writing? else w.workers[i].beat.Writing?)
    ensures Enabled(w, Write(i, main, replyLost))
    ensures
      var pc := if main then w.workers[i].main else w.workers[i].beat;
      var committed := pc.snap.seqNo == w.stored.seqNo;
      var after := Next(w, Write(i, main, replyLost));
      && after.now == w.now && after.workers.Keys == w.workers.Keys
      && (forall j :: j in w.workers && j != i ==> after.workers[j] == w.workers[j])
      && (committed ==>
            && after.stored == Versioned(pc.doc, w.stored.seqNo + 1, w.now) && |after.log| == |w.log| + 1
            && after.log[..|w.log|] == w.log && after.log[|w.log|].after == pc.doc)
      && (!committed ==> after.stored == w.stored && after.log == w.log)
      && after.workers[i].held ==
         (if committed && !replyLost && pc.req.Acquire? then Some(Lease(pc.req.owner, pc.doc.token, pc.req.ttl))
          else w.workers[i].held)
  {
  }

  // ---- the commit log ----------------------------------------------------------------

  /** The document after the first `i` commits of `log`. */
  function DocAt<M>(initial: Doc<M>, log: seq<Commit<M>>, i: nat): Doc<M>
    requires i <= |log|
  {
    if i == 0 then initial else log[i - 1].after
  }

  function TimeAt<M>(log: seq<Commit<M>>, i: nat): Time
    requires i <= |log|
  {
    if i == 0 then 0 else log[i - 1].at
  }

  /** Commit `k` was decided on exactly the version it replaced, after that version was committed. */
  ghost predicate IsChained<M>(initial: Doc<M>, log: seq<Commit<M>>, k: nat)
    requires k < |log|
  {
    var c := log[k];
    && c.before == DocAt(initial, log, k)
    && Decision(c.req, c.before, c.decidedAt) == Ok(c.after)
    && TimeAt(log, k) <= c.decidedAt <= c.at
  }

  /** The worker's operation thread committed nothing in `from..k`. */
  ghost predicate QuietSince<M>(log: seq<Commit<M>>, from: nat, k: nat, worker: WorkerId)
    requires k <= |log|
  {
    forall i :: from <= i < k ==> !(log[i].worker == worker && log[i].main)
  }

  /** A first read recorded with commit `k` saw an earlier version and decided
      what is written, and the worker's operation thread committed nothing since. */
  ghost predicate IsFirstReadOf<M>(
    initial: Doc<M>, log: seq<Commit<M>>, k: nat, worker: WorkerId, req: Request<M>, f: First<M>)
    requires k <= |log|
  {
    && f.snap.seqNo <= k
    && f.snap.doc == DocAt(initial, log, f.snap.seqNo)
    && TimeAt(log, f.snap.seqNo) <= f.at
    && req.Patch?
    && FirstRead(f.kind, f.snap.doc, req.lease, f.at) == Ok(req.op)
    && QuietSince(log, f.snap.seqNo, k, worker)
  }

  ghost predicate HasFirstRead<M>(initial: Doc<M>, log: seq<Commit<M>>, k: nat)
    requires k < |log|
  {
    var c := log[k];
    && (c.first.Some? ==>
          IsFirstReadOf(initial, log, k, c.worker, c.req, c.first.value) && c.first.value.at <= c.decidedAt)
    && (c.req.Patch? && (c.req.op.Publish? || c.req.op.Abort? || c.req.op.Begin?) ==> c.first.Some?)
  }

  /** A fenced commit's lease was granted to its worker by an earlier commit. */
  ghost predicate IsGranted<M>(log: seq<Commit<M>>, k: nat, worker: WorkerId, l: Lease)
    requires k <= |log|
  {
    exists g :: 0 <= g < k && GrantedBy(log[g], worker, l)
  }

  ghost predicate GrantedBy<M>(c: Commit<M>, worker: WorkerId, l: Lease)
  {
    c.worker == worker && c.req.Acquire? && c.after.token == l.token && c.req.owner == l.owner && l.owner != ""
  }

  ghost predicate IsAttributed<M>(log: seq<Commit<M>>, k: nat)
    requires k < |log|
  {
    var c := log[k];
    && (c.req.Patch? && c.req.lease.Some? ==> IsGranted(log, k, c.worker, c.req.lease.value))
    && (!c.main ==> c.req.Patch? && c.req.op.Renew? && c.req.lease.Some?)
    && !c.req.Twice?
    && (c.req.Acquire? ==> c.req.owner != "")
    && (c.req.Patch? && (c.req.op.Renew? || c.req.op.Release?) ==> c.req.lease.Some?)
  }

  ghost predicate ValidLog<M>(initial: Doc<M>, log: seq<Commit<M>>)
  {
    forall k :: 0 <= k < |log| ==> IsChained(initial, log, k) && HasFirstRead(initial, log, k) && IsAttributed(log, k)
  }

  // ---- the invariant of every interleaving ----------------------------------------------

  ghost predicate IsSnapshot<M>(initial: Doc<M>, w: World<M>, snap: Versioned<M>)
  {
    && snap.seqNo <= |w.log|
    && snap.doc == DocAt(initial, w.log, snap.seqNo)
    && snap.since == TimeAt(w.log, snap.seqNo)
  }

  /** `req` was allowed to this thread (its lease was granted to the worker). */
  ghost predicate WasAllowed<M>(w: World<M>, i: WorkerId, main: bool, req: Request<M>, first: Option<First<M>>)
  {
    && (req.Patch? && req.lease.Some? ==> IsGranted(w.log, |w.log|, i, req.lease.value))
    && (req.Twice? && req.lease.Some? ==> IsGranted(w.log, |w.log|, i, req.lease.value))
    && (!main ==> req.Patch? && req.op.Renew? && req.lease.Some?)
    && (req.Acquire? ==> req.owner != "")
    && (req.Patch? && (req.op.Publish? || req.op.Abort? || req.op.Begin?) ==> first.Some?)
    && (req.Patch? && (req.op.Renew? || req.op.Release?) ==> req.lease.Some?)
  }

  ghost predicate FirstOk<M>(
    initial: Doc<M>, w: World<M>, i: WorkerId, main: bool, req: Request<M>, first: Option<First<M>>)
  {
    first.Some? ==> main && IsFirstReadOf(initial, w.log, |w.log|, i, req, first.value) && first.value.at <= w.now
  }

  ghost predicate PcOk<M>(initial: Doc<M>, w: World<M>, i: WorkerId, main: bool, pc: Pc<M>)
  {
    match pc
    case Idle => true
    case HasRead(req, snap, first) =>
      && IsSnapshot(initial, w, snap) && snap.since <= w.now
      && (main ==> QuietSince(w.log, snap.seqNo, |w.log|, i))
      && WasAllowed(w, i, main, req, first) && FirstOk(initial, w, i, main, req, first)
    case Between(op, lease, started) =>
      && main && (lease.Some? ==> IsGranted(w.log, |w.log|, i, lease.value))
      && !op.Renew? && !op.Release?
      && FirstOk(initial, w, i, main, Patch(op, lease), Some(started))
    case Writing(req, snap, doc, first, decidedAt) =>
      && IsSnapshot(initial, w, snap) && snap.since <= decidedAt <= w.now
      && Decision(req, snap.doc, decidedAt) == Ok(doc)
      && !req.Twice?
      && WasAllowed(w, i, main, req, first) && FirstOk(initial, w, i, main, req, first)
      && (first.Some? ==> first.value.at <= decidedAt)
  }

  ghost predicate WorkerOk<M>(initial: Doc<M>, w: World<M>, i: WorkerId)
    requires i in w.workers
  {
    && (w.workers[i].held.Some? ==> IsGranted(w.log, |w.log|, i, w.workers[i].held.value))
    && PcOk(initial, w, i, true, w.workers[i].main)
    && PcOk(initial, w, i, false, w.workers[i].beat)
  }

  ghost predicate Inv<M>(initial: Doc<M>, w: World<M>)
  {
    && IsSnapshot(initial, w, w.stored) && w.stored.seqNo == |w.log| && w.stored.since <= w.now
    && ValidLog(initial, w.log)
    && forall i :: i in w.workers ==> WorkerOk(initial, w, i)
  }

  ghost predicate Starts<M>(w: World<M>)
  {
    && w.stored.seqNo == 0 && w.stored.since == 0 && w.log == []
    && forall i :: i in w.workers ==> w.workers[i] == Worker(None, Idle, Idle)
  }

  ghost predicate IsRun<M>(worlds: seq<World<M>>, events: seq<Event<M>>)
  {
    && |worlds| == |events| + 1 && Starts(worlds[0])
    && forall k :: 0 <= k < |events| ==> Enabled(worlds[k], events[k]) && worlds[k + 1] == Next(worlds[k], events[k])
  }

  lemma DocsKept<M>(initial: Doc<M>, log: seq<Commit<M>>, c: Commit<M>, i: nat)
    requires i <= |log|
    ensures DocAt(initial, log + [c], i) == DocAt(initial, log, i)
    ensures TimeAt(log + [c], i) == TimeAt(log, i)
  {
  }

  lemma GrantKept<M>(log: seq<Commit<M>>, k: nat, c: Commit<M>, worker: WorkerId, l: Lease)
    requires k <= |log| && IsGranted(log, k, worker, l)
    ensures IsGranted(log + [c], k, worker, l)
    ensures IsGranted(log + [c], |log| + 1, worker, l)
  {
    var g :| 0 <= g < k && GrantedBy(log[g], worker, l);
    assert GrantedBy((log + [c])[g], worker, l);
  }

  lemma FirstReadKept<M>(
    initial: Doc<M>, log: seq<Commit<M>>, k: nat, c: Commit<M>, worker: WorkerId, req: Request<M>, f: First<M>)
    requires k <= |log| && IsFirstReadOf(initial, log, k, worker, req, f)
    ensures IsFirstReadOf(initial, log + [c], k, worker, req, f)
    ensures k == |log| && !(c.worker == worker && c.main) ==>
      IsFirstReadOf(initial, log + [c], |log| + 1, worker, req, f)
  {
    DocsKept(initial, log, c, f.snap.seqNo);
  }

  lemma CommitKept<M>(initial: Doc<M>, log: seq<Commit<M>>, c: Commit<M>, k: nat)
    requires k < |log|
    requires IsChained(initial, log, k) && HasFirstRead(initial, log, k) && IsAttributed(log, k)
    ensures IsChained(initial, log + [c], k) && HasFirstRead(initial, log + [c], k) && IsAttributed(log + [c], k)
  {
    DocsKept(initial, log, c, k);
    var d := log[k];
    if d.first.Some? {
      FirstReadKept(initial, log, k, c, d.worker, d.req, d.first.value);
    }
    if d.req.Patch? && d.req.lease.Some? {
      GrantKept(log, k, c, d.worker, d.req.lease.value);
    }
  }

  /** A thread that did not commit keeps its facts when another commit is logged. */
  lemma PcKept<M>(
    initial: Doc<M>, w: World<M>, w': World<M>, c: Commit<M>, i: WorkerId, main: bool, pc: Pc<M>)
    requires PcOk(initial, w, i, main, pc)
    requires w'.log == w.log + [c] && w'.now >= w.now
    requires !(c.worker == i && c.main && main)
    ensures PcOk(initial, w', i, main, pc)
  {
    match pc
    case Idle =>
    case HasRead(req, snap, first) =>
      DocsKept(initial, w.log, c, snap.seqNo);
      RequestKept(initial, w, c, i, req);
      if first.Some? { FirstReadKept(initial, w.log, |w.log|, c, i, req, first.value); }
    case Between(op, lease, started) =>
      RequestKept(initial, w, c, i, Patch(op, lease));
      FirstReadKept(initial, w.log, |w.log|, c, i, Patch(op, lease), started);
    case Writing(req, snap, doc, first, decidedAt) =>
      DocsKept(initial, w.log, c, snap.seqNo);
      RequestKept(initial, w, c, i, req);
      if first.Some? { FirstReadKept(initial, w.log, |w.log|, c, i, req, first.value); }
  }

  function LeaseOf<M>(req: Request<M>): Option<Lease>
  {
    if req.Acquire? then None else req.lease
  }

  lemma RequestKept<M>(initial: Doc<M>, w: World<M>, c: Commit<M>, i: WorkerId, req: Request<M>)
    requires LeaseOf(req).Some? ==> IsGranted(w.log, |w.log|, i, LeaseOf(req).value)
    ensures LeaseOf(req).Some? ==> IsGranted(w.log + [c], |w.log| + 1, i, LeaseOf(req).value)
  {
    if LeaseOf(req).Some? {
      GrantKept(w.log, |w.log|, c, i, LeaseOf(req).value);
    }
  }

  /** Nothing but the clock moved for this thread. */
  lemma PcLater<M>(initial: Doc<M>, w: World<M>, w': World<M>, i: WorkerId, main: bool, pc: Pc<M>)
    requires PcOk(initial, w, i, main, pc)
    requires w'.log == w.log && w'.now >= w.now
    ensures PcOk(initial, w', i, main, pc)
  {
  }

  lemma ReadStep<M>(initial: Doc<M>, w: World<M>, e: Event<M>)
    requires Inv(initial, w) && Enabled(w, e) && (e.Read? || e.ReadAgain?)
    ensures Inv(initial, Next(w, e))
  {
    var w' := Next(w, e);
    forall i | i in w'.workers
      ensures WorkerOk(initial, w', i)
    {
      assert WorkerOk(initial, w, i);
      PcLater(initial, w, w', i, true, w.workers[i].main);
      PcLater(initial, w, w', i, false, w.workers[i].beat);
    }
  }

  lemma DecidedOk<M>(initial: Doc<M>, w: World<M>, i: WorkerId, main: bool, pc: Pc<M>)
    requires Inv(initial, w) && pc.HasRead? && PcOk(initial, w, i, main, pc)
    ensures PcOk(initial, w, i, main, Decided(pc, w.now))
  {
  }

  lemma DecideStep<M>(initial: Doc<M>, w: World<M>, e: Event<M>)
    requires Inv(initial, w) && Enabled(w, e) && e.Decide?
    ensures Inv(initial, Next(w, e))
  {
    var w' := Next(w, e);
    DecidedOk(initial, w, e.worker, e.main, PcOf(w.workers[e.worker], e.main));
    forall i | i in w'.workers
      ensures WorkerOk(initial, w', i)
    {
      assert WorkerOk(initial, w, i);
      PcLater(initial, w, w', i, true, w'.workers[i].main);
      PcLater(initial, w, w', i, false, w'.workers[i].beat);
    }
  }

  lemma TickStep<M>(initial: Doc<M>, w: World<M>, e: Event<M>)
    requires Inv(initial, w) && Enabled(w, e) && e.Tick?
    ensures Inv(initial, Next(w, e))
  {
    var w' := Next(w, e);
    forall i | i in w'.workers
      ensures WorkerOk(initial, w', i)
    {
      assert WorkerOk(initial, w, i);
      PcLater(initial, w, w', i, true, w.workers[i].main);
      PcLater(initial, w, w', i, false, w.workers[i].beat);
    }
  }

  /** The commit a successful compare-and-swap logs is decided on the version it replaces. */
  lemma NewCommitOk<M>(initial: Doc<M>, w: World<M>, e: Event<M>)
    requires Inv(initial, w) && Enabled(w, e) && e.Write?
    requires PcOf(w.workers[e.worker], e.main).snap.seqNo == w.stored.seqNo
    ensures var log := Next(w, e).log; var k := |w.log|;
      |log| == k + 1 && IsChained(initial, log, k) && HasFirstRead(initial, log, k) && IsAttributed(log, k)
  {
    assert WorkerOk(initial, w, e.worker);
    var pc := PcOf(w.workers[e.worker], e.main);
    var c := Next(w, e).log[|w.log|];
    assert PcOk(initial, w, e.worker, e.main, pc);
    DocsKept(initial, w.log, c, |w.log|);
    if pc.first.Some? {
      FirstReadKept(initial, w.log, |w.log|, c, e.worker, pc.req, pc.first.value);
    }
    if pc.req.Patch? && pc.req.lease.Some? {
      GrantKept(w.log, |w.log|, c, e.worker, pc.req.lease.value);
    }
  }

  lemma NewLogValid<M>(initial: Doc<M>, w: World<M>, e: Event<M>)
    requires Inv(initial, w) && Enabled(w, e) && e.Write?
    requires PcOf(w.workers[e.worker], e.main).snap.seqNo == w.stored.seqNo
    ensures ValidLog(initial, Next(w, e).log)
  {
    var log := Next(w, e).log;
    NewCommitOk(initial, w, e);
    forall k | 0 <= k < |log|
      ensures IsChained(initial, log, k) && HasFirstRead(initial, log, k) && IsAttributed(log, k)
    {
      if k < |w.log| {
        CommitKept(initial, w.log, log[|w.log|], k);
      }
    }
  }

  lemma HeldGranted<M>(initial: Doc<M>, w: World<M>, e: Event<M>)
    requires Inv(initial, w) && Enabled(w, e) && e.Write?
    requires PcOf(w.workers[e.worker], e.main).snap.seqNo == w.stored.seqNo
    ensures var w' := Next(w, e);
      w'.workers[e.worker].held.Some? ==>
        IsGranted(w'.log, |w'.log|, e.worker, w'.workers[e.worker].held.value)
  {
    assert WorkerOk(initial, w, e.worker);
    var pc := PcOf(w.workers[e.worker], e.main);
    assert PcOk(initial, w, e.worker, e.main, pc);
    var w' := Next(w, e);
    var c := w'.log[|w.log|];
    var held := w.workers[e.worker].held;
    if held.Some? {
      GrantKept(w.log, |w.log|, c, e.worker, held.value);
    }
    if pc.req.Acquire? {
      assert GrantedBy(w'.log[|w.log|], e.worker, Lease(pc.req.owner, pc.doc.token, pc.req.ttl));
    }
  }

  lemma CommitStep<M>(initial: Doc<M>, w: World<M>, e: Event<M>)
    requires Inv(initial, w) && Enabled(w, e) && e.Write?
    requires PcOf(w.workers[e.worker], e.main).snap.seqNo == w.stored.seqNo
    ensures Inv(initial, Next(w, e))
  {
    var w' := Next(w, e);
    var c := w'.log[|w.log|];
    NewLogValid(initial, w, e);
    HeldGranted(initial, w, e);
    forall i | i in w'.workers
      ensures WorkerOk(initial, w', i)
    {
      assert WorkerOk(initial, w, i);
      if i != e.worker || !e.main {
        PcKept(initial, w, w', c, i, true, w.workers[i].main);
      }
      if i != e.worker || e.main {
        PcKept(initial, w, w', c, i, false, w.workers[i].beat);
      }
      if i != e.worker && w.workers[i].held.Some? {
        GrantKept(w.log, |w.log|, c, i, w.workers[i].held.value);
      }
    }
  }

  lemma ConflictStep<M>(initial: Doc<M>, w: World<M>, e: Event<M>)
    requires Inv(initial, w) && Enabled(w, e) && e.Write?
    requires PcOf(w.workers[e.worker], e.main).snap.seqNo != w.stored.seqNo
    ensures Inv(initial, Next(w, e))
  {
    var w' := Next(w, e);
    forall i | i in w'.workers
      ensures WorkerOk(initial, w', i)
    {
      assert WorkerOk(initial, w, i);
      PcLater(initial, w, w', i, true, w.workers[i].main);
      PcLater(initial, w, w', i, false, w.workers[i].beat);
    }
  }

  lemma StepKeepsInvariant<M>(initial: Doc<M>, w: World<M>, e: Event<M>)
    requires Inv(initial, w) && Enabled(w, e)
    ensures Inv(initial, Next(w, e))
  {
    match e
    case Tick(_) => TickStep(initial, w, e);
    case Read(_, _, _) => ReadStep(initial, w, e);
    case Decide(_, _) => DecideStep(initial, w, e);
    case ReadAgain(_) => ReadStep(initial, w, e);
    case Write(i, main, _) =>
      if PcOf(w.workers[i], main).snap.seqNo == w.stored.seqNo {
        CommitStep(initial, w, e);
      } else {
        ConflictStep(initial, w, e);
      }
  }

  /** In every reachable world the commit log is valid: each write was decided
      on exactly the version it replaced. */
  lemma {:induction false} RunHasValidLog<M>(worlds: seq<World<M>>, events: seq<Event<M>>, k: nat)
    requires IsRun(worlds, events) && k < |worlds|
    ensures Inv(worlds[0].stored.doc, worlds[k])
  {
    if k > 0 {
      RunHasValidLog(worlds, events, k - 1);
      StepKeepsInvariant(worlds[0].stored.doc, worlds[k - 1], events[k - 1]);
    }
  }
}
