/** The state document of one source on the server: its fields, the lease
    check and every read-modify-write the backend performs on it. */
module StateDocument {
  import opened Wrappers

  type BuildId = string
  type GenerationId = string
  type Time = nat

  datatype Conflict =
    Superseded | Expired | HeldByAnother | NotPending | BaseSuperseded | StillActive | Changed | Unreachable

  /** A writer lease; owners are non-empty names, `""` stands for nobody. */
  datatype Lease = Lease(owner: string, token: int, ttl: nat)

  /** A replaced build (or graph generation) and when it was replaced. */
  datatype Retired = Retired(id: string, at: Time)

  datatype SourceState = NeedsFullRebuild | BuildingBase | ReadyBase | FailedBase

  datatype GraphLifecycle = GraphPending | GraphDisabled | GraphBuilding | GraphReady | GraphStale | GraphFailed

  /** The graph record inside the document. `manifest` stands for the digests,
      keys and derivation identity recorded with the generation. */
  datatype GraphRecord<M> = GraphRecord(
    state: GraphLifecycle,
    generation: Option<GenerationId>,
    base: Option<BuildId>,
    inputDigest: Option<string>,
    manifest: Option<M>,
    pending: Option<GenerationId>,
    retired: seq<Retired>)
  {
    /** A `ready` graph of another base counts as stale. */
    function EffectiveState(active: Option<BuildId>): GraphLifecycle
    {
      if state == GraphReady && base != active then GraphStale else state
    }

    /** The generation readers of `active` may use. */
    function VisibleGeneration(active: Option<BuildId>): Option<GenerationId>
    {
      if state == GraphReady && active.Some? && base == active then generation else None
    }

    /** The generation readers are served and whether it is stale. */
    function ServedGeneration(active: Option<BuildId>, requireCurrent: bool): Option<(GenerationId, bool)>
    {
      if VisibleGeneration(active).Some? then Some((VisibleGeneration(active).value, false))
      else if requireCurrent || active.None? || state == GraphDisabled || state == GraphPending then None
      else if generation.Some? then Some((generation.value, true))
      else None
    }

    /** Ready or stale, with nothing being written. */
    predicate Settled()
    {
      pending.None? && (state == GraphReady || state == GraphStale)
    }
  }

  datatype Doc<M> = Doc(
    state: SourceState,
    active: Option<BuildId>,
    pending: Option<BuildId>,
    owner: string,
    token: int,
    expires: Option<Time>,
    retired: seq<Retired>,
    graph: GraphRecord<M>)
  {
    predicate LiveAt(now: Time)
    {
      expires.Some? && expires.value > now
    }
  }

  // ---- leases -----------------------------------------------------------------

  /** A fenced write needs the live lease; an unfenced one needs nobody to hold a live lease. */
  function CheckLease<M>(doc: Doc<M>, lease: Option<Lease>, now: Time): Result<(), Conflict>
  {
    match lease
    case Some(l) =>
      if doc.owner != l.owner || doc.token != l.token then Err(Superseded)
      else if !doc.LiveAt(now) then Err(Expired)
      else Ok(())
    case None =>
      if doc.owner != "" && doc.LiveAt(now) then Err(HeldByAnother) else Ok(())
  }

  /** Grants the lease to `owner` unless another owner's lease is live. */
  function Grant<M>(doc: Doc<M>, owner: string, ttl: nat, now: Time): Result<Doc<M>, Conflict>
  {
    if doc.owner != "" && doc.owner != owner && doc.LiveAt(now) then Err(HeldByAnother)
    else Ok(doc.(owner := owner, token := doc.token + 1, expires := Some(now + ttl)))
  }

  // ---- retirement -----------------------------------------------------------------

  function Filter(retired: seq<Retired>, keep: Retired -> bool): (r: seq<Retired>)
    ensures forall e :: e in r <==> e in retired && keep(e)
  {
    if retired == [] then []
    else if keep(retired[0]) then [retired[0]] + Filter(retired[1..], keep)
    else Filter(retired[1..], keep)
  }

  /** Still inside the reader grace window. */
  predicate InGrace(at: Time, now: Time, grace: nat)
  {
    grace > 0 && (if now >= at then now - at else 0) < grace
  }

  /** The retired list once `current` is replaced by `next` at `now`. */
  function Retire(retired: seq<Retired>, current: Option<string>, next: string, now: Time, grace: nat): seq<Retired>
  {
    var all := if current.Some? && current.value != next then retired + [Retired(current.value, now)] else retired;
    Filter(all, (e: Retired) => InGrace(e.at, now, grace))
  }

  // ---- the writes -----------------------------------------------------------------

  /** What one read-modify-write does to the document. */
  datatype Op<M> =
    | Begin(build: BuildId)
    | Publish(build: BuildId, keep: seq<Retired>)
    | Abort
    | Renew(ttl: nat)
    | Release
    | RequireRebuild
    | SetGraph(lifecycle: GraphLifecycle)
    | MarkPending(generation: GenerationId)
    | Promote(generation: GenerationId, base: BuildId, inputDigest: Option<string>, manifest: M, grace: nat)
    | Repoint(generation: GenerationId, base: BuildId, inputDigest: Option<string>, manifest: M)
    | Rebind(generation: GenerationId, base: BuildId, digest: string)
    | FailGraph(generation: GenerationId)

  /** The patch `op` applied to the document it read; `now` is the writer's clock. */
  function Apply<M>(op: Op<M>, doc: Doc<M>, now: Time): Result<Doc<M>, Conflict>
  {
    var g := doc.graph;
    match op
    case Begin(build) => Ok(doc.(state := BuildingBase, pending := Some(build)))
    case Publish(build, keep) =>
      Ok(doc.(state := ReadyBase, active := Some(build), pending := None, retired := keep))
    case Abort =>
      Ok(doc.(state := if doc.active.Some? then FailedBase else NeedsFullRebuild, pending := None))
    case Renew(ttl) => Ok(doc.(expires := Some(now + ttl)))
    case Release => Ok(doc.(owner := "", expires := None))
    case RequireRebuild => Ok(doc.(state := NeedsFullRebuild))
    case SetGraph(lifecycle) => Ok(doc.(graph := g.(state := lifecycle)))
    case MarkPending(generation) =>
      Ok(doc.(graph := g.(state := GraphBuilding, pending := Some(generation))))
    case Promote(generation, base, inputDigest, manifest, grace) =>
      if doc.active != Some(base) then Err(BaseSuperseded)
      else if g.pending != Some(generation) then Err(NotPending)
      else Ok(doc.(graph := GraphRecord(GraphReady, Some(generation), Some(base), inputDigest, Some(manifest), None,
                                        Retire(g.retired, g.generation, generation, now, grace))))
    case Repoint(generation, base, inputDigest, manifest) =>
      if doc.active != Some(base) then Err(BaseSuperseded)
      else if g.generation != Some(generation) || !g.Settled() then Ok(doc)
      else Ok(doc.(graph := g.(state := GraphReady, base := Some(base), inputDigest := inputDigest,
                               manifest := Some(manifest))))
    case Rebind(generation, base, digest) =>
      if doc.active != Some(base) then Err(BaseSuperseded)
      else if g.generation != Some(generation) || g.inputDigest != Some(digest) || !g.Settled() then Ok(doc)
      else Ok(doc.(graph := g.(state := GraphReady, base := Some(base))))
    case FailGraph(generation) =>
      Ok(doc.(graph := g.(state := GraphFailed,
                          pending := if g.pending == Some(generation) then None else g.pending)))
  }

  /** The operations that read the document twice: a first read decides (and
      deletes leftovers), a second one is written back. */
  datatype TwoRead = BeginBuild(build: BuildId) | PublishBuild(build: BuildId, grace: nat) | AbortBuild(build: BuildId)

  /** What the first read of a two-read operation decides to write. */
  function FirstRead<M>(kind: TwoRead, doc: Doc<M>, lease: Option<Lease>, now: Time): Result<Op<M>, Conflict>
  {
    match kind
    case BeginBuild(build) =>
      if CheckLease(doc, lease, now).Err? then Err(CheckLease(doc, lease, now).error) else Ok(Begin(build))
    case PublishBuild(build, grace) =>
      if doc.pending != Some(build) then Err(NotPending)
      else if CheckLease(doc, lease, now).Err? then Err(CheckLease(doc, lease, now).error)
      else Ok(Publish(build, Retire(doc.retired, doc.active, build, now, grace)))
    case AbortBuild(build) =>
      if doc.active == Some(build) then Err(StillActive)
      else if CheckLease(doc, lease, now).Err? then Err(CheckLease(doc, lease, now).error)
      else if doc.pending == Some(build) then Ok(Abort)
      else Err(NotPending)
  }

  // ---- what the decisions mean ---------------------------------------------------------

  /** The lease of the document runs out after `now`. */
  predicate RunsAfter<M>(doc: Doc<M>, now: Time)
  {
    match doc.expires
    case Some(t) => now < t
    case None => false
  }

  /** A fenced write is allowed to the owner and token of the document while its
      time runs; an unfenced one when nobody owns the lease or its time is over. */
  lemma LeaseAllows<M>(doc: Doc<M>, lease: Option<Lease>, now: Time)
    ensures CheckLease(doc, lease, now).Ok? <==>
      match lease
      case Some(l) => l.owner == doc.owner && l.token == doc.token && RunsAfter(doc, now)
      case None => doc.owner == "" || !RunsAfter(doc, now)
    ensures CheckLease(doc, lease, now) == Err(Superseded) <==>
      lease.Some? && (lease.value.owner != doc.owner || lease.value.token != doc.token)
    ensures CheckLease(doc, lease, now) == Err(HeldByAnother) ==> lease.None?
  {
  }

  /** A retired build (or generation) is kept exactly until its grace has passed
      since it was replaced; what is replaced now is retired now. */
  lemma KeptUntilGraceEnds(
    retired: seq<Retired>, current: Option<string>, next: string, now: Time, grace: nat, e: Retired)
    ensures e in Retire(retired, current, next, now, grace) <==>
      && (e in retired || (current.Some? && current.value != next && e == Retired(current.value, now)))
      && grace > 0 && now < e.at + grace
  {
  }

  ghost predicate SameLease<M>(a: Doc<M>, b: Doc<M>)
  {
    a.owner == b.owner && a.token == b.token && a.expires == b.expires
  }

  ghost predicate SameBuilds<M>(a: Doc<M>, b: Doc<M>)
  {
    a.state == b.state && a.active == b.active && a.pending == b.pending && a.retired == b.retired
  }

  /** What the writes on builds do: the lease and the graph record are left alone. */
  lemma BuildWrites<M>(op: Op<M>, doc: Doc<M>, now: Time)
    requires op.Begin? || op.Publish? || op.Abort? || op.RequireRebuild?
    ensures Apply(op, doc, now).Ok?
    ensures var after := Apply(op, doc, now).value;
      && SameLease(after, doc) && after.graph == doc.graph
      && (op.Begin? ==>
            after.state == BuildingBase && after.pending == Some(op.build) && after.active == doc.active &&
            after.retired == doc.retired)
      && (op.Publish? ==>
            after.state == ReadyBase && after.active == Some(op.build) && after.pending == None &&
            after.retired == op.keep)
      && (op.Abort? ==>
            after.state == (if doc.active == None then NeedsFullRebuild else FailedBase) && after.pending == None &&
            after.active == doc.active && after.retired == doc.retired)
      && (op.RequireRebuild? ==>
            after.state == NeedsFullRebuild && after.pending == doc.pending && after.active == doc.active &&
            after.retired == doc.retired)
  {
  }

  /** What the writes on the lease do: nothing but move its end, or give it up. */
  lemma LeaseWrites<M>(op: Op<M>, doc: Doc<M>, now: Time)
    requires op.Renew? || op.Release?
    ensures Apply(op, doc, now).Ok?
    ensures var after := Apply(op, doc, now).value;
      && SameBuilds(after, doc) && after.graph == doc.graph && after.token == doc.token
      && (op.Renew? ==> after.owner == doc.owner && after.expires == Some(now + op.ttl))
      && (op.Release? ==> after.owner == "" && after.expires == None)
  {
  }

  /** The generation is the current one, and nothing is being written. */
  ghost predicate IsSettledOn<M>(g: GraphRecord<M>, generation: GenerationId)
  {
    g.generation == Some(generation) && g.pending == None && (g.state == GraphReady || g.state == GraphStale)
  }

  /** What the graph writes that always succeed do, field by field. */
  lemma GraphWrites<M>(op: Op<M>, doc: Doc<M>, now: Time)
    requires op.SetGraph? || op.MarkPending? || op.FailGraph?
    ensures Apply(op, doc, now).Ok?
    ensures var after := Apply(op, doc, now).value; var g, h := doc.graph, after.graph;
      && SameLease(after, doc) && SameBuilds(after, doc)
      && h.generation == g.generation && h.base == g.base && h.inputDigest == g.inputDigest
      && h.manifest == g.manifest && h.retired == g.retired
      && (op.SetGraph? ==> h.state == op.lifecycle && h.pending == g.pending)
      && (op.MarkPending? ==> h.state == GraphBuilding && h.pending == Some(op.generation))
      && (op.FailGraph? ==>
            h.state == GraphFailed && h.pending != Some(op.generation) &&
            (g.pending != Some(op.generation) ==> h.pending == g.pending))
  {
  }

  /** A promotion needs the active base and the pending generation; it makes the
      generation current, complete and visible to readers of that base. */
  lemma PromotionIff<M>(op: Op<M>, doc: Doc<M>, now: Time)
    requires op.Promote?
    ensures Apply(op, doc, now).Ok? <==> doc.active == Some(op.base) && doc.graph.pending == Some(op.generation)
    ensures Apply(op, doc, now).Ok? ==>
      var after := Apply(op, doc, now).value; var h := after.graph;
      && SameLease(after, doc) && SameBuilds(after, doc)
      && h.state == GraphReady && h.generation == Some(op.generation) && h.base == doc.active && h.pending == None
      && h.inputDigest == op.inputDigest && h.manifest == Some(op.manifest)
      && h.VisibleGeneration(after.active) == Some(op.generation)
  {
  }

  /** A repointing or rebinding needs the active base, and does nothing unless the
      generation is the settled current one (and its inputs are those named). */
  lemma RepointIff<M>(op: Op<M>, doc: Doc<M>, now: Time)
    requires op.Repoint? || op.Rebind?
    ensures Apply(op, doc, now).Ok? <==> doc.active == Some(op.base)
    ensures Apply(op, doc, now).Ok? ==>
      var after := Apply(op, doc, now).value; var g, h := doc.graph, after.graph;
      if IsSettledOn(g, op.generation) && (op.Rebind? ==> g.inputDigest == Some(op.digest)) then
        && SameLease(after, doc) && SameBuilds(after, doc)
        && h.state == GraphReady && h.generation == g.generation && h.base == doc.active && h.pending == None
        && h.retired == g.retired
        && (op.Repoint? ==> h.inputDigest == op.inputDigest && h.manifest == Some(op.manifest))
        && (op.Rebind? ==> h.inputDigest == g.inputDigest && h.manifest == g.manifest)
      else after == doc
  {
  }

  /** What readers of the active build are served: a strict one the current
      generation when it is ready and of that very build, any other one also an
      older generation, marked as stale, unless the graph is disabled or was never built. */
  lemma ServedIff<M>(g: GraphRecord<M>, active: Option<BuildId>, id: GenerationId)
    ensures g.ServedGeneration(active, true) == Some((id, false))
      <==> g.state == GraphReady && g.generation == Some(id) && active.Some? && g.base == active
    ensures g.ServedGeneration(active, true).Some? ==> !g.ServedGeneration(active, true).value.1
    ensures g.ServedGeneration(active, true).Some? ==>
      g.ServedGeneration(active, false) == g.ServedGeneration(active, true)
    ensures g.ServedGeneration(active, false) == Some((id, true))
      <==> && g.generation == Some(id) && active.Some? && g.state != GraphDisabled && g.state != GraphPending
           && !(g.state == GraphReady && g.base == active)
    ensures g.EffectiveState(active) == GraphReady <==> g.state == GraphReady && g.base == active
    ensures g.state != GraphReady ==> g.EffectiveState(active) == g.state
  {
  }

  /** What the first read of the operations that read twice decides. */
  lemma FirstReadAllows<M>(kind: TwoRead, doc: Doc<M>, lease: Option<Lease>, now: Time)
    ensures FirstRead(kind, doc, lease, now).Ok? <==>
      && CheckLease(doc, lease, now).Ok?
      && (kind.PublishBuild? ==> doc.pending == Some(kind.build))
      && (kind.AbortBuild? ==> doc.pending == Some(kind.build) && doc.active != Some(kind.build))
    ensures FirstRead(kind, doc, lease, now).Ok? ==>
      match kind
      case BeginBuild(b) => FirstRead(kind, doc, lease, now).value == Begin(b)
      case AbortBuild(_) => FirstRead(kind, doc, lease, now).value == Abort
      case PublishBuild(b, grace) =>
        FirstRead(kind, doc, lease, now).value == Publish(b, Retire(doc.retired, doc.active, b, now, grace))
  {
  }
}
