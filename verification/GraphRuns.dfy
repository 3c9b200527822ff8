/** Whole histories of a source: base updates, rebuilds that carry the graph
    forward, adoptions of a published graph, and graph builds that succeed or fail. */
module GraphRuns {
  import opened Wrappers
  import opened Resolution
  import opened GraphInputs
  import opened GraphStage

  datatype Event =
    | Update(base: Snapshot, finishedAt: nat)
    | Rebuild(base: Snapshot, published: Generation, carried: bool)
    | Adopt(rows: map<RowId, Row>, files: Snapshot, digest: Option<InputDigest>)
    | Build(extra: string)
    | Fail(lifecycle: Lifecycle)

  function RowsOfFiles(rows: map<RowId, Row>, files: set<FileId>): map<RowId, Row>
  {
    map id | id in rows && rows[id].file in files :: rows[id]
  }

  /** A new base build: the rows of files it still has are carried into it
      (when the superseded build held the graph and the copy succeeded). */
  function AfterRebuild(s: Store, base: Snapshot, published: Generation, carried: bool): Store
  {
    if carried && s.state.baseBuild == Some(s.published.build) then
      s.(base := base, published := published, rows := RowsOfFiles(s.rows, base.Keys),
         state := s.state.(baseBuild := Some(published.build)))
    else
      s.(base := base, published := published, rows := map[])
  }

  /** Rows published elsewhere become this build's rows; files the build lacks lose theirs. */
  ghost function AfterAdopt(
    x: Extractor, derivation: string, s: Store, rows: map<RowId, Row>, files: Snapshot,
    digest: Option<InputDigest>): Store
  {
    var adopted := RowsOfFiles(rows, s.base.Keys);
    s.(rows := adopted, files := files, symbols := SymbolsOfFiles(x, s.base, adopted, s.base.Keys),
       state := s.state.(baseBuild := Some(s.published.build), baseGeneration := None,
                         derivation := Some(derivation), inputDigest := digest,
                         manifestVersion := MANIFEST_VERSION, metadataComplete := true, resolveAll := true))
  }

  /** After a rebuild the graph has a row exactly if it was carried forward, had
      it before and the new base has its file; what it carries is no longer
      bound to the old base, and manifest, symbols and digest stay. */
  lemma RebuildMeans(s: Store, base: Snapshot, published: Generation, carried: bool, id: RowId)
    ensures
      var after := AfterRebuild(s, base, published, carried);
      var kept := carried && s.state.baseBuild == Some(s.published.build);
      && after.base == base && after.published == published
      && after.files == s.files && after.symbols == s.symbols
      && (id in after.rows <==> kept && id in s.rows && s.rows[id].file in base)
      && (id in after.rows ==> after.rows[id] == s.rows[id])
      && after.state.baseBuild == (if kept then Some(published.build) else s.state.baseBuild)
      && after.state == s.state.(baseBuild := after.state.baseBuild)
  {
  }

  /** After an adoption the graph has a row exactly if the adopted one has it and
      the base has its file; it is complete for the published base but bound to
      no publication, and everything is to be resolved again. */
  lemma AdoptMeans(
    x: Extractor, derivation: string, s: Store, rows: map<RowId, Row>, files: Snapshot, digest: Option<InputDigest>,
    id: RowId)
    ensures
      var after := AfterAdopt(x, derivation, s, rows, files, digest);
      && after.base == s.base && after.published == s.published && after.files == files
      && (id in after.rows <==> id in rows && rows[id].file in s.base)
      && (id in after.rows ==> after.rows[id] == rows[id])
      && IsReusable(after, derivation) && after.state.baseGeneration == None && after.state.resolveAll
      && after.state.inputDigest == digest && after.state.lifecycle == s.state.lifecycle
      && after.symbols.Keys == s.base.Keys && SymbolsExact(x, after.symbols, s.base)
  {
    var after := AfterAdopt(x, derivation, s, rows, files, digest);
    forall f, key
      ensures FingerprintAt(after.symbols, f, key) == FingerprintIn(x, s.base, f, key)
    {
      if f in s.base {
        RecordedSymbols(x, s.base, after.rows, s.base.Keys, f, key);
      }
    }
  }

  ghost function After(x: Extractor, derivation: string, s: Store, e: Event): Store
    requires x.Valid()
  {
    match e
    case Update(base, at) => s.(base := base, published := s.published.(finishedAt := at))
    case Rebuild(base, published, carried) => AfterRebuild(s, base, published, carried)
    case Adopt(rows, files, digest) => AfterAdopt(x, derivation, s, rows, files, digest)
    case Build(extra) => AfterPlan(x, s, PlanOf(s, derivation, extra))
    case Fail(lifecycle) => s.(state := s.state.(lifecycle := lifecycle))
  }

  /** What the surroundings guarantee: build ids are new, an adopted graph is
      one that was resolved for its manifest, a failed build is not `ready`. */
  ghost predicate Legal(x: Extractor, derivation: string, s: Store, e: Event)
    requires x.Valid()
  {
    match e
    case Update(_, _) => true
    case Rebuild(_, published, _) =>
      && published.build != s.published.build
      && s.state.baseBuild != Some(published.build)
      && (s.state.baseGeneration.Some? ==> s.state.baseGeneration.value.build != published.build)
    case Adopt(rows, files, digest) =>
      RowsExact(x, rows, files) && (digest.Some? ==> digest.value.files == files)
    case Build(_) => true
    case Fail(lifecycle) => !lifecycle.Ready?
  }

  predicate Fresh(s: Store)
  {
    s.state == GraphState(NeverBuilt, 0, None, None, None, None, 0, false, false)
  }

  ghost predicate IsStep(x: Extractor, derivation: string, s: Store, e: Event, s': Store)
    requires x.Valid()
  {
    Legal(x, derivation, s, e) && s' == After(x, derivation, s, e)
  }

  /** `states[i]` is the store before `events[i]`. */
  ghost predicate IsRun(x: Extractor, derivation: string, states: seq<Store>, events: seq<Event>)
    requires x.Valid()
  {
    && |states| == |events| + 1
    && Fresh(states[0])
    && forall i :: 0 <= i < |events| ==> IsStep(x, derivation, states[i], events[i], states[i + 1])
  }

  // ---- what a caller can know of the history -------------------------------------------

  /** The base the last adoption took its graph into, the listed files whose rows
      were dropped, and whether a rebind was misled about the recorded symbols. */
  datatype Notes = Notes(into: Snapshot, lost: set<FileId>, misled: bool)

  /** Two snapshots whose files define the same candidates. */
  ghost predicate SameDefinitions(x: Extractor, a: Snapshot, b: Snapshot)
  {
    forall f, key :: FingerprintIn(x, a, f, key) == FingerprintIn(x, b, f, key)
  }

  /** A rebind of an adopted graph that was not built yet finds the definitions
      of the base it was adopted into. */
  ghost predicate BuildTrusted(x: Extractor, derivation: string, s: Store, n: Notes, e: Event)
  {
    e.Build? && PlanOf(s, derivation, e.extra).action.Rebind? && s.state.resolveAll ==>
      SameDefinitions(x, n.into, s.base)
  }

  /** The graph is carried into the new base. */
  predicate IsCarried(s: Store, e: Event)
  {
    e.Rebuild? && e.carried && s.state.baseBuild == Some(s.published.build)
  }

  /** What is lost: listed files the new base lacks when the graph is carried, all
      of them when it is not; adopted files the base lacks or whose rows did not
      come along. A build finds again what it derives: changed files, or
      everything. A rebind that is not to be trusted misleads the builds after it,
      up to a full one, an adoption or a base the graph is not carried into. */
  ghost function NotesAfter(x: Extractor, derivation: string, s: Store, n: Notes, e: Event): Notes
    requires x.Valid()
  {
    match e
    case Rebuild(base, _, _) =>
      if IsCarried(s, e) then n.(lost := n.lost + (s.files.Keys - base.Keys))
      else n.(lost := s.files.Keys, misled := false)
    case Adopt(rows, files, _) =>
      Notes(s.base, set f | f in files && (f !in s.base || !(x.rows(f, files[f]).Keys <= rows.Keys)), false)
    case Build(extra) =>
      if PlanOf(s, derivation, extra).full then n.(lost := {}, misled := false)
      else
        n.(misled := n.misled || !BuildTrusted(x, derivation, s, n, e),
           lost := set f | f in n.lost && f in s.base && f in s.files && s.base[f] == s.files[f])
    case _ => n
  }

  /** The notes before event `i`. */
  ghost function NotesAt(
    x: Extractor, derivation: string, states: seq<Store>, events: seq<Event>, i: nat): Notes
    requires x.Valid() && i <= |events| && |events| <= |states|
  {
    if i == 0 then Notes(map[], {}, false)
    else NotesAfter(x, derivation, states[i - 1], NotesAt(x, derivation, states, events, i - 1), events[i - 1])
  }

  // ---- the symbols of an adopted graph ---------------------------------------------------

  /** Until its first build an adopted graph's symbols are those of the base it was adopted into. */
  ghost predicate Settled(x: Extractor, s: Store, into: Snapshot)
    requires x.Valid()
  {
    s.state.resolveAll ==> SymbolsRight(x, s.(files := into))
  }

  lemma AdoptionIsSettled(x: Extractor, base: Snapshot, rows: map<RowId, Row>)
    requires x.Valid()
    ensures
      var adopted := RowsOfFiles(rows, base.Keys);
      var symbols := SymbolsOfFiles(x, base, adopted, base.Keys);
      SymbolsExact(x, symbols, base) && SymbolsNonEmpty(symbols) && ReferencesRecorded(adopted, symbols)
  {
    var adopted := RowsOfFiles(rows, base.Keys);
    var symbols := SymbolsOfFiles(x, base, adopted, base.Keys);
    forall f, key
      ensures FingerprintAt(symbols, f, key) == FingerprintIn(x, base, f, key)
      ensures key in FingerprintsOf(symbols, f) ==> FingerprintsOf(symbols, f)[key] != []
    {
      if f in base { RecordedSymbols(x, base, adopted, base.Keys, f, key); }
    }
    forall id | id in adopted
      ensures adopted[id].file in symbols && ReferenceKeys(adopted[id]) <= symbols[adopted[id].file].refs
    {
      RecordedReferences(x, base, adopted, base.Keys, id);
    }
  }

  /** The recorded symbols are those of the manifest exactly when the base
      adopted into defines what the manifest's files define. */
  lemma TrustworthyIff(x: Extractor, derivation: string, s: Store, into: Snapshot, extra: string)
    requires x.Valid() && Inv(x, derivation, s) && Settled(x, s, into)
    ensures RebindTrustworthy(x, s, PlanOf(s, derivation, extra))
      <==> BuildTrusted(x, derivation, s, Notes(into, {}, false), Build(extra))
  {
    PlanFacts(derivation, s, extra);
    if PlanOf(s, derivation, extra).action.Rebind? && s.state.resolveAll {
      forall f, key
        ensures FingerprintAt(s.symbols, f, key) == FingerprintIn(x, into, f, key)
      {
        assert SymbolsExact(x, s.(files := into).symbols, into);
      }
    }
  }

  lemma OtherEventKeepsInvariant(x: Extractor, derivation: string, s: Store, e: Event)
    requires x.Valid() && Inv(x, derivation, s) && Legal(x, derivation, s, e) && !e.Build?
    ensures Inv(x, derivation, After(x, derivation, s, e))
  {
  }

  lemma EventKeepsInvariant(x: Extractor, derivation: string, s: Store, n: Notes, e: Event)
    requires x.Valid() && Inv(x, derivation, s) && Settled(x, s, n.into) && Legal(x, derivation, s, e)
    ensures Inv(x, derivation, After(x, derivation, s, e)) <==> BuildTrusted(x, derivation, s, n, e)
  {
    if e.Build? {
      BuildKeepsInvariant(x, derivation, s, e.extra);
      TrustworthyIff(x, derivation, s, n.into, e.extra);
    } else {
      OtherEventKeepsInvariant(x, derivation, s, e);
    }
  }

  lemma EventKeepsSettled(x: Extractor, derivation: string, s: Store, n: Notes, e: Event)
    requires x.Valid() && Settled(x, s, n.into) && Legal(x, derivation, s, e)
    ensures Settled(x, After(x, derivation, s, e), NotesAfter(x, derivation, s, n, e).into)
  {
    if e.Adopt? {
      AdoptionIsSettled(x, s.base, e.rows);
    } else if e.Rebuild? {
      RebuildKeepsSettled(x, s, n.into, e);
    }
  }

  lemma RebuildKeepsSettled(x: Extractor, s: Store, into: Snapshot, e: Event)
    requires x.Valid() && Settled(x, s, into) && e.Rebuild?
    ensures Settled(x, AfterRebuild(s, e.base, e.published, e.carried), into)
  {
  }

  // ---- the rows of lost files ---------------------------------------------------------------

  /** A listed file misses rows exactly when it is lost and has any. */
  ghost predicate RowsAccounted(x: Extractor, s: Store, lost: set<FileId>)
  {
    forall f :: f in s.files ==> (RowsStored(x, s, f) <==> f !in lost || x.rows(f, s.files[f]) == map[])
  }

  ghost predicate Accounted(x: Extractor, derivation: string, s: Store, lost: set<FileId>)
  {
    Complete(s, derivation) ==> RowsAccounted(x, s, lost)
  }

  lemma NothingToLose(rows: map<RowId, Row>, own: map<RowId, Row>)
    requires forall id :: id in own ==> id !in rows
    ensures own.Keys <= rows.Keys <==> own == map[]
  {
    if own != map[] {
      var id :| id in own;
    }
  }

  lemma RestrictedRows(
    x: Extractor, rows: map<RowId, Row>, files: Snapshot, base: Snapshot, f: FileId)
    requires x.Valid() && RowsExact(x, rows, files) && f in files
    ensures f in base ==> (x.rows(f, files[f]).Keys <= RowsOfFiles(rows, base.Keys).Keys
                           <==> x.rows(f, files[f]).Keys <= rows.Keys)
    ensures f !in base ==> (x.rows(f, files[f]).Keys <= RowsOfFiles(rows, base.Keys).Keys
                            <==> x.rows(f, files[f]) == map[])
  {
    var kept, own := RowsOfFiles(rows, base.Keys), x.rows(f, files[f]);
    forall id | id in own
      ensures id in kept <==> id in rows && f in base
    {
      if id in rows { RowBelongs(x, rows, files, f, id); }
    }
    if f !in base { NothingToLose(kept, own); }
  }

  lemma RebuildAccounted(x: Extractor, derivation: string, s: Store, n: Notes, e: Event)
    requires x.Valid() && Inv(x, derivation, s) && Accounted(x, derivation, s, n.lost)
    requires e.Rebuild? && Legal(x, derivation, s, e)
    ensures Accounted(x, derivation, After(x, derivation, s, e), NotesAfter(x, derivation, s, n, e).lost)
  {
    var after := After(x, derivation, s, e);
    if Complete(after, derivation) {
      forall f | f in s.files
        ensures RowsStored(x, after, f)
          <==> f !in NotesAfter(x, derivation, s, n, e).lost || x.rows(f, s.files[f]) == map[]
      {
        RestrictedRows(x, s.rows, s.files, e.base, f);
        assert RowsStored(x, s, f) <==> f !in n.lost || x.rows(f, s.files[f]) == map[];
      }
    }
  }

  lemma AdoptAccounted(x: Extractor, derivation: string, s: Store, n: Notes, e: Event)
    requires x.Valid() && e.Adopt? && Legal(x, derivation, s, e)
    ensures RowsAccounted(x, After(x, derivation, s, e), NotesAfter(x, derivation, s, n, e).lost)
  {
    forall f | f in e.files
      ensures RowsStored(x, After(x, derivation, s, e), f)
        <==> f !in NotesAfter(x, derivation, s, n, e).lost || x.rows(f, e.files[f]) == map[]
    {
      RestrictedRows(x, e.rows, e.files, s.base, f);
    }
  }

  lemma ScopedAccounted(x: Extractor, derivation: string, s: Store, lost: set<FileId>, extra: string, f: FileId)
    requires x.Valid() && Inv(x, derivation, s) && Complete(s, derivation) && RowsAccounted(x, s, lost)
    requires !PlanOf(s, derivation, extra).full && f in s.base
    ensures x.rows(f, s.base[f]).Keys <= BuiltRows(x, s, PlanOf(s, derivation, extra)).Keys
      <==> !(f in lost && f in s.files && s.base[f] == s.files[f]) || x.rows(f, s.base[f]) == map[]
  {
    var plan := PlanOf(s, derivation, extra);
    PlanFacts(derivation, s, extra);
    StoredAfterBuild(x, s, plan, f);
    if f !in plan.Changed(s.base) {
      assert RowsStored(x, s, f) <==> f !in lost || x.rows(f, s.files[f]) == map[];
    }
  }

  lemma BuildAccounted(x: Extractor, derivation: string, s: Store, n: Notes, e: Event)
    requires x.Valid() && Inv(x, derivation, s) && Accounted(x, derivation, s, n.lost) && e.Build?
    ensures Accounted(x, derivation, After(x, derivation, s, e), NotesAfter(x, derivation, s, n, e).lost)
  {
    var plan := PlanOf(s, derivation, e.extra);
    var after, lost := After(x, derivation, s, e), NotesAfter(x, derivation, s, n, e).lost;
    PlanFacts(derivation, s, e.extra);
    if plan.full {
      FullRowsAreRight(x, s, plan);
      forall f | f in s.base
        ensures x.rows(f, s.base[f]).Keys <= after.rows.Keys
      {
        assert FullGraph(x, s.base).Keys == DerivedRows(x, s.base).Keys;
      }
    } else if plan.action.Skip? || plan.action.Rebind? {
      forall f | f in s.files && Complete(s, derivation)
        ensures RowsStored(x, after, f) <==> f !in lost || x.rows(f, s.files[f]) == map[]
      {
        assert RowsStored(x, s, f) <==> f !in n.lost || x.rows(f, s.files[f]) == map[];
      }
    } else {
      forall f | f in s.base
        ensures RowsStored(x, after, f) <==> f !in lost || x.rows(f, s.base[f]) == map[]
      {
        ScopedAccounted(x, derivation, s, n.lost, e.extra, f);
      }
    }
  }

  lemma EventKeepsAccounted(x: Extractor, derivation: string, s: Store, n: Notes, e: Event)
    requires x.Valid() && Inv(x, derivation, s) && Accounted(x, derivation, s, n.lost) && Legal(x, derivation, s, e)
    ensures Accounted(x, derivation, After(x, derivation, s, e), NotesAfter(x, derivation, s, n, e).lost)
  {
    match e
    case Rebuild(_, _, _) => RebuildAccounted(x, derivation, s, n, e);
    case Adopt(_, _, _) => AdoptAccounted(x, derivation, s, n, e);
    case Build(_) => BuildAccounted(x, derivation, s, n, e);
    case _ =>
      if Complete(s, derivation) {
        forall f | f in s.files
          ensures RowsStored(x, After(x, derivation, s, e), f) <==> f !in n.lost || x.rows(f, s.files[f]) == map[]
        {
          assert RowsStored(x, s, f) <==> f !in n.lost || x.rows(f, s.files[f]) == map[];
        }
      }
  }

  // ---- whole runs -----------------------------------------------------------------------------

  /** Everything that is kept along a run; unless a rebind misled it, what is recorded is right. */
  ghost predicate Kept(x: Extractor, derivation: string, s: Store, n: Notes)
    requires x.Valid()
  {
    && BindingRight(derivation, s) && Settled(x, s, n.into)
    && (!n.misled ==> Inv(x, derivation, s) && Accounted(x, derivation, s, n.lost))
  }

  lemma EventKeepsBinding(x: Extractor, derivation: string, s: Store, e: Event)
    requires x.Valid() && BindingRight(derivation, s) && Legal(x, derivation, s, e)
    ensures BindingRight(derivation, After(x, derivation, s, e))
  {
    if e.Build? { BuildKeepsBinding(x, derivation, s, e.extra); }
  }

  lemma FullBuildAccounted(x: Extractor, derivation: string, s: Store, e: Event)
    requires x.Valid() && BindingRight(derivation, s) && e.Build? && PlanOf(s, derivation, e.extra).full
    ensures Accounted(x, derivation, After(x, derivation, s, e), {})
  {
    var after := After(x, derivation, s, e);
    PlanFacts(derivation, s, e.extra);
    FullBuildIsRight(x, derivation, s, e.extra);
    forall f | f in after.files
      ensures RowsStored(x, after, f)
    {
      assert FullGraph(x, s.base).Keys == DerivedRows(x, s.base).Keys;
    }
  }

  /** Whatever was recorded, these events leave it right. */
  lemma EventRightsItself(x: Extractor, derivation: string, s: Store, n: Notes, e: Event)
    requires x.Valid() && BindingRight(derivation, s) && Legal(x, derivation, s, e)
    requires n.misled && !NotesAfter(x, derivation, s, n, e).misled
    ensures
      var after := After(x, derivation, s, e);
      Inv(x, derivation, after) && Accounted(x, derivation, after, NotesAfter(x, derivation, s, n, e).lost)
  {
    EventKeepsBinding(x, derivation, s, e);
    if e.Adopt? {
      AdoptAccounted(x, derivation, s, n, e);
    } else if e.Build? {
      FullBuildIsRight(x, derivation, s, e.extra);
      FullBuildAccounted(x, derivation, s, e);
    }
  }

  lemma StepKeeps(x: Extractor, derivation: string, s: Store, n: Notes, e: Event, s': Store)
    requires x.Valid() && Kept(x, derivation, s, n) && IsStep(x, derivation, s, e, s')
    ensures Kept(x, derivation, s', NotesAfter(x, derivation, s, n, e))
  {
    EventKeepsBinding(x, derivation, s, e);
    EventKeepsSettled(x, derivation, s, n, e);
    if !NotesAfter(x, derivation, s, n, e).misled {
      if n.misled {
        EventRightsItself(x, derivation, s, n, e);
      } else {
        EventKeepsInvariant(x, derivation, s, n, e);
        EventKeepsAccounted(x, derivation, s, n, e);
      }
    }
  }

  lemma {:induction false} RunKeepsInvariant(
    x: Extractor, derivation: string, states: seq<Store>, events: seq<Event>, i: nat)
    requires x.Valid() && IsRun(x, derivation, states, events) && i <= |events|
    ensures Kept(x, derivation, states[i], NotesAt(x, derivation, states, events, i))
  {
    if i > 0 {
      RunKeepsInvariant(x, derivation, states, events, i - 1);
      var n := NotesAt(x, derivation, states, events, i - 1);
      assert IsStep(x, derivation, states[i - 1], events[i - 1], states[i]);
      StepKeeps(x, derivation, states[i - 1], n, events[i - 1], states[i]);
    }
  }

  /** No lost file with rows is in the base with the key the manifest lists. */
  ghost predicate NoLostReturned(x: Extractor, s: Store, lost: set<FileId>)
  {
    forall f :: f in lost && f in s.base && f in s.files && s.files[f] == s.base[f] ==> x.rows(f, s.base[f]) == map[]
  }

  lemma NothingLostIff(x: Extractor, s: Store, plan: Plan, lost: set<FileId>)
    requires !plan.full && RowsAccounted(x, s, lost)
    ensures NothingLost(x, s, plan) <==> NoLostReturned(x, s, lost)
  {
    forall f | f in s.base && f in s.files && s.files[f] == s.base[f]
      ensures x.rows(f, s.base[f]).Keys <= s.rows.Keys <==> f !in lost || x.rows(f, s.base[f]) == map[]
    {
      assert RowsStored(x, s, f) <==> f !in lost || x.rows(f, s.files[f]) == map[];
    }
  }

  lemma BuildEventIsFromScratch(x: Extractor, derivation: string, s: Store, n: Notes, e: Event)
    requires x.Valid() && Kept(x, derivation, s, n) && e.Build? && !n.misled
    ensures RowsExact(x, After(x, derivation, s, e).rows, s.base)
    ensures After(x, derivation, s, e).rows == FullGraph(x, s.base)
      <==> PlanOf(s, derivation, e.extra).full || NoLostReturned(x, s, n.lost)
  {
    var plan := PlanOf(s, derivation, e.extra);
    BuildIsFromScratch(x, derivation, s, e.extra);
    PlanFacts(derivation, s, e.extra);
    if !plan.full {
      NothingLostIff(x, s, plan, n.lost);
    }
  }

  /** After every full build of every run the stored rows are the from-scratch
      graph of the current base. After every other one they are rows of it, unless
      a rebind has misled the build; and they are all of them if and only if no
      lost file with rows had come back with the key the manifest still lists. */
  lemma EveryBuildIsFromScratch(
    x: Extractor, derivation: string, states: seq<Store>, events: seq<Event>, i: nat)
    requires x.Valid() && IsRun(x, derivation, states, events) && i < |events| && events[i].Build?
    ensures
      var n, after := NotesAt(x, derivation, states, events, i), states[i + 1].rows;
      if PlanOf(states[i], derivation, events[i].extra).full then after == FullGraph(x, states[i].base)
      else
        !n.misled ==>
          RowsExact(x, after, states[i].base) &&
          (after == FullGraph(x, states[i].base) <==> NoLostReturned(x, states[i], n.lost))
  {
    var n := NotesAt(x, derivation, states, events, i);
    RunKeepsInvariant(x, derivation, states, events, i);
    assert IsStep(x, derivation, states[i], events[i], states[i + 1]);
    if PlanOf(states[i], derivation, events[i].extra).full {
      FullBuildIsRight(x, derivation, states[i], events[i].extra);
    } else if !n.misled {
      BuildEventIsFromScratch(x, derivation, states[i], n, events[i]);
    }
  }

  /** What is recorded (rows, manifest, digest) stays right exactly as long as no
      rebind is misled: the first one that finds other definitions than those
      adopted into leaves a wrong record. This is about the record; whether the
      rows of a later build are wrong depends on what changes next. */
  lemma TrustIsNeeded(
    x: Extractor, derivation: string, states: seq<Store>, events: seq<Event>, i: nat)
    requires x.Valid() && IsRun(x, derivation, states, events)
    requires i < |events| && !NotesAt(x, derivation, states, events, i).misled
    ensures Inv(x, derivation, states[i + 1]) <==> !NotesAt(x, derivation, states, events, i + 1).misled
  {
    RunKeepsInvariant(x, derivation, states, events, i);
    assert IsStep(x, derivation, states[i], events[i], states[i + 1]);
    EventKeepsInvariant(x, derivation, states[i], NotesAt(x, derivation, states, events, i), events[i]);
  }

  lemma NoneToReturn(x: Extractor, s: Store, lost: set<FileId>)
    requires lost !! s.base.Keys
    ensures NoLostReturned(x, s, lost)
  {
  }

  /** When none of the lost files is in the base, a build that is not misled
      leaves exactly the graph of a full build. */
  lemma LosslessRunEqualsFullBuild(
    x: Extractor, derivation: string, states: seq<Store>, events: seq<Event>, i: nat)
    requires x.Valid() && IsRun(x, derivation, states, events) && i < |events| && events[i].Build?
    ensures
      var n := NotesAt(x, derivation, states, events, i);
      !n.misled && n.lost !! states[i].base.Keys ==> states[i + 1].rows == FullGraph(x, states[i].base)
  {
    var lost := NotesAt(x, derivation, states, events, i).lost;
    EveryBuildIsFromScratch(x, derivation, states, events, i);
    if lost !! states[i].base.Keys {
      NoneToReturn(x, states[i], lost);
    }
  }

  // ---- where the code falls short ----------------------------------------------------

  /** One code file `f` with one structural row. */
  function OneRowExtractor(): Extractor
  {
    Extractor((f, k) => [], k => true,
              (f, k) => if f == "f" then map["r" := Row("f", None, None, None, Structural, Exact)] else map[])
  }

  function NewStore(base: Snapshot): Store
  {
    Store(base, Generation("b1", 1), map[],
          GraphState(NeverBuilt, 0, None, None, None, None, 0, false, false), map[], map[])
  }

  lemma OneRowValid()
    ensures OneRowExtractor().Valid()
  {
  }

  lemma OneRowGraph()
    requires OneRowExtractor().Valid()
    ensures FullGraph(OneRowExtractor(), map["f" := "k"]) != map[]
  {
    var x := OneRowExtractor();
    var base: Snapshot := map["f" := "k"];
    assert "f" in base && "r" in x.rows("f", base["f"]);
    assert "r" in DerivedRows(x, base);
    assert "r" in FullGraph(x, base).Keys;
  }

  lemma FirstBuild(x: Extractor, s: Store)
    requires x.Valid() && Fresh(s)
    ensures var after := After(x, "d", s, Build(""));
      after == s.(rows := FullGraph(x, s.base), files := s.base, symbols := after.symbols,
        state := GraphState(Ready, 1, Some(s.published.build), Some(s.published), Some("d"),
                            Some(InputDigest("d", s.base, "")), MANIFEST_VERSION, true, false))
  {
    var plan := PlanOf(s, "d", "");
    FreshPlan(s);
    FullRowsAreRight(x, s, plan);
    assert After(x, "d", s, Build("")) == AfterDerivation(x, s, plan);
  }

  lemma FreshPlan(s: Store)
    requires Fresh(s)
    ensures PlanOf(s, "d", "").full && PlanOf(s, "d", "").action == Full
    ensures PlanOf(s, "d", "").inputDigest == InputDigest("d", s.base, "")
  {
  }

  /** The files of a built graph vanish from one rebuilt base and come back
      unchanged: carrying the graph forward dropped their rows, the manifest
      still lists their keys, so the next plan is a rebind and no row returns. */
  lemma ReturningFilesStayDropped(x: Extractor, s: Store, published: Generation, at: nat)
    requires x.Valid() && s.files == s.base && Complete(s, "d")
    requires s.state.inputDigest == Some(InputDigest("d", s.base, ""))
    requires s.state.baseGeneration == Some(s.published) && published.build != s.published.build
    ensures
      var dropped := After(x, "d", s, Rebuild(map[], published, true));
      var restored := After(x, "d", dropped, Update(s.base, at));
      PlanOf(restored, "d", "").action == Rebind &&
      After(x, "d", restored, Build("")).rows == map[]
  {
    var none: Snapshot := map[];
    assert RowsOfFiles(s.rows, none.Keys) == map[];
  }

  lemma OneMoreStep(
    x: Extractor, derivation: string, states: seq<Store>, events: seq<Event>, e: Event, s': Store)
    requires x.Valid() && IsRun(x, derivation, states, events)
    requires IsStep(x, derivation, states[|events|], e, s')
    ensures IsRun(x, derivation, states + [s'], events + [e])
  {
    forall i | 0 <= i < |events|
      ensures IsStep(x, derivation, states[i], events[i], states[i + 1])
    {
    }
  }

  lemma FourSteps(
    x: Extractor, derivation: string, s0: Store, e0: Event, s1: Store, e1: Event, s2: Store, e2: Event,
    s3: Store, e3: Event, s4: Store)
    requires x.Valid() && Fresh(s0)
    requires IsStep(x, derivation, s0, e0, s1) && IsStep(x, derivation, s1, e1, s2)
    requires IsStep(x, derivation, s2, e2, s3) && IsStep(x, derivation, s3, e3, s4)
    ensures IsRun(x, derivation, [s0, s1, s2, s3, s4], [e0, e1, e2, e3])
  {
    OneMoreStep(x, derivation, [s0], [], e0, s1);
    OneMoreStep(x, derivation, [s0, s1], [e0], e1, s2);
    OneMoreStep(x, derivation, [s0, s1, s2], [e0, e1], e2, s3);
    OneMoreStep(x, derivation, [s0, s1, s2, s3], [e0, e1, e2], e3, s4);
    assert [s0, s1, s2, s3] + [s4] == [s0, s1, s2, s3, s4];
    assert [e0, e1, e2] + [e3] == [e0, e1, e2, e3];
  }

  /** Build, rebuild without the file, restore it, build again. */
  ghost function VanishingRun(x: Extractor, s: Store): (r: (seq<Store>, seq<Event>))
    requires x.Valid()
  {
    var s1 := After(x, "d", s, Build(""));
    var s2 := After(x, "d", s1, Rebuild(map[], Generation("b2", 2), true));
    var s3 := After(x, "d", s2, Update(s.base, 3));
    ([s, s1, s2, s3, After(x, "d", s3, Build(""))],
     [Build(""), Rebuild(map[], Generation("b2", 2), true), Update(s.base, 3), Build("")])
  }

  lemma VanishingRunIsRun(x: Extractor, s: Store)
    requires x.Valid() && Fresh(s) && s.published.build == "b1"
    ensures IsRun(x, "d", VanishingRun(x, s).0, VanishingRun(x, s).1)
  {
    var states, events := VanishingRun(x, s).0, VanishingRun(x, s).1;
    FirstBuild(x, s);
    FourSteps(x, "d", states[0], events[0], states[1], events[1], states[2], events[2],
              states[3], events[3], states[4]);
  }

  lemma VanishingRunEndsEmpty(x: Extractor, s: Store)
    requires x.Valid() && Fresh(s) && s.published.build == "b1"
    ensures VanishingRun(x, s).0[4].rows == map[] && VanishingRun(x, s).0[3].base == s.base
  {
    FirstBuild(x, s);
    ReturningFilesStayDropped(x, After(x, "d", s, Build("")), Generation("b2", 2), 3);
  }

  /** A run of legal events after which a graph reported as rebuilt lacks a row. */
  lemma ReturningFileLosesRows() returns (x: Extractor, states: seq<Store>, events: seq<Event>)
    ensures x.Valid() && IsRun(x, "d", states, events)
    ensures |events| == 4 && events[3].Build? && states[4].rows != FullGraph(x, states[3].base)
  {
    OneRowValid();
    OneRowGraph();
    x := OneRowExtractor();
    var s := NewStore(map["f" := "k"]);
    VanishingRunIsRun(x, s);
    VanishingRunEndsEmpty(x, s);
    states, events := VanishingRun(x, s).0, VanishingRun(x, s).1;
  }

  /** File `f` defines `a` under key "k" only; file `g` refers to `a`. */
  function ReferringExtractor(): Extractor
  {
    Extractor((f, k) => ReferredEntities(f, k), k => true, (f, k) => RowsReferring(f))
  }

  function ReferredEntities(f: FileId, k: Key): seq<Entity>
  {
    if f == "f" && k == "k" then [Entity("e", "f", "a", "a", 1)] else []
  }

  function RowsReferring(f: FileId): map<RowId, Row>
  {
    if f == "g" then map["r" := Row("g", Some("a"), None, None, Pending, Medium)] else map[]
  }

  lemma ReferringValid()
    ensures ReferringExtractor().Valid()
  {
    assert forall f, k, e :: e in ReferredEntities(f, k) ==> f == "f" && k == "k" && e == Entity("e", "f", "a", "a", 1);
    assert forall f, id :: id in RowsReferring(f) ==> f == "g" && id == "r" && RowsReferring(f)[id].file == "g";
  }

  /** A kept row is published as it was when no recorded fingerprint of a
      changed or removed file differs from the current one. */
  lemma UnnoticedChange(x: Extractor, s: Store, plan: Plan, id: RowId)
    requires x.Valid() && !plan.full && !s.state.resolveAll
    requires AffectedKeys(x, s, plan) == {}
    requires id in KeptRows(s, plan.Changed(s.base)) && id !in FreshRows(x, s.base, plan.Changed(s.base))
    ensures id in BuiltRows(x, s, plan) && BuiltRows(x, s, plan)[id] == s.rows[id]
  {
    assert Dependents(s.symbols, {}) == {};
    assert s.rows[id].file !in plan.Changed(s.base);
  }

  lemma SoleDefinitionFound(base: Snapshot)
    requires ReferringExtractor().Valid() && "f" in base && base["f"] == "k" && "g" in base && base.Keys == {"f", "g"}
    ensures NaiveTarget("a", "g", EntitiesOf(ReferringExtractor(), base)).entity == Some("e")
  {
    var x := ReferringExtractor();
    var e := Entity("e", "f", "a", "a", 1);
    assert e in x.entities("f", base["f"]);
    var es := EntitiesOf(x, base);
    assert e in QualifiedCandidates("a", "g", es);
    forall d | d in QualifiedCandidates("a", "g", es)
      ensures d.id == "e"
    {
    }
  }

  lemma NoDefinitionLeft(base: Snapshot)
    requires ReferringExtractor().Valid() && "f" in base && base["f"] != "k"
    ensures NaiveTarget("a", "g", EntitiesOf(ReferringExtractor(), base)).entity == None
  {
    assert EntitiesOf(ReferringExtractor(), base) == {};
  }

  lemma AdoptedRows(x: Extractor, s: Store, m: Snapshot)
    requires x.Valid() && s.base.Keys == m.Keys
    ensures RowsOfFiles(FullGraph(x, m), s.base.Keys) == FullGraph(x, m)
  {
    forall id | id in FullGraph(x, m)
      ensures FullGraph(x, m)[id].file in s.base
    {
      assert DerivedRows(x, m)[id].file in m;
    }
  }

  /** A complete store whose digest is that of its base is rebound. */
  lemma EquivalentSnapshotIsRebound(x: Extractor, s: Store)
    requires x.Valid() && Complete(s, "d") && s.state.inputDigest == Some(InputDigest("d", s.base, ""))
    requires !s.state.lifecycle.Ready?
    ensures After(x, "d", s, Build("")) == s.(state := ReboundState(s))
  {
    assert PlanOf(s, "d", "").action == Rebind;
  }

  /** The graph of {f:k, g} adopted into the base {f:j, g}. */
  ghost function AdoptedInto(x: Extractor, s: Store, m: Snapshot): Store
    requires x.Valid()
  {
    AfterAdopt(x, "d", s, FullGraph(x, m), m, Some(InputDigest("d", m, "")))
  }

  lemma ReferringPlan(s: Store)
    requires IsReferringSnapshot(s.files, "k") && IsReferringSnapshot(s.base, "l")
    requires Complete(s, "d") && s.state.lifecycle == Ready
    requires s.state.inputDigest == Some(InputDigest("d", s.files, ""))
    ensures
      var plan := PlanOf(s, "d", "");
      plan.action == Incremental && plan.Changed(s.base) == {"f"} && plan.removed == {}
  {
    assert s.files["f"] != s.base["f"];
    var plan := PlanOf(s, "d", "");
    assert plan.modified == {"f"};
    assert plan.Changed(s.base) == {"f"};
  }

  lemma NothingAffected(s: Store, plan: Plan)
    requires ReferringExtractor().Valid()
    requires IsReferringSnapshot(s.base, "l") && plan.Changed(s.base) == {"f"} && plan.removed == {}
    requires FingerprintsOf(s.symbols, "f") == map[]
    ensures AffectedKeys(ReferringExtractor(), s, plan) == {}
  {
    var x := ReferringExtractor();
    assert x.entities("f", s.base["f"]) == [];
    var current := SymbolsOfFiles(x, s.base, StagedRows(x, s, plan), {"f"});
    assert FingerprintsOf(current, "f") == map[];
  }

  /** The store after adopting the graph of `m`, returning to `m` and rebinding. */
  ghost function ReboundTo(x: Extractor, s: Store, m: Snapshot): Store
    requires x.Valid()
  {
    After(x, "d", After(x, "d", AdoptedInto(x, s, m), Update(m, 2)), Build(""))
  }

  lemma AdoptedThenRebound(x: Extractor, s: Store, m: Snapshot)
    requires x.Valid() && s.base.Keys == m.Keys && s.state.lifecycle == NeverBuilt
    ensures
      var r := ReboundTo(x, s, m);
      r.rows == FullGraph(x, m) && r.files == m && r.base == m &&
      r.symbols == SymbolsOfFiles(x, s.base, FullGraph(x, m), s.base.Keys) &&
      Complete(r, "d") && r.state.lifecycle == Ready && !r.state.resolveAll &&
      r.state.inputDigest == Some(InputDigest("d", m, ""))
  {
    AdoptedRows(x, s, m);
    EquivalentSnapshotIsRebound(x, After(x, "d", AdoptedInto(x, s, m), Update(m, 2)));
  }

  /** An incremental build that sees no affected key publishes a kept row as it was. */
  lemma MissedChange(x: Extractor, s: Store, id: RowId)
    requires x.Valid() && PlanOf(s, "d", "").action == Incremental && !s.state.resolveAll
    requires AffectedKeys(x, s, PlanOf(s, "d", "")) == {}
    requires id in KeptRows(s, PlanOf(s, "d", "").Changed(s.base))
    requires id !in FreshRows(x, s.base, PlanOf(s, "d", "").Changed(s.base))
    ensures id in After(x, "d", s, Build("")).rows
    ensures After(x, "d", s, Build("")).rows[id] == s.rows[id]
  {
    UnnoticedChange(x, s, PlanOf(s, "d", ""), id);
  }

  predicate IsReferringSnapshot(s: Snapshot, key: Key)
  {
    s.Keys == {"f", "g"} && s["f"] == key && s["g"] == "h"
  }

  lemma ReferenceBefore(base: Snapshot)
    requires ReferringExtractor().Valid() && IsReferringSnapshot(base, "k")
    ensures var g := FullGraph(ReferringExtractor(), base);
      "r" in g && g["r"].file == "g" && g["r"].targetEntity == Some("e")
  {
    ReferringRows(base);
    SoleDefinitionFound(base);
  }

  lemma ReferenceAfter(base: Snapshot)
    requires ReferringExtractor().Valid() && IsReferringSnapshot(base, "l")
    ensures var g := FullGraph(ReferringExtractor(), base);
      "r" in g && g["r"].file == "g" && g["r"].targetEntity == None
  {
    ReferringRows(base);
    NoDefinitionLeft(base);
  }

  lemma ReferenceNotFresh(base: Snapshot)
    requires ReferringExtractor().Valid() && "g" in base
    ensures "r" !in FreshRows(ReferringExtractor(), base, {"f"})
  {
    ReferringRows(base);
  }

  lemma DefinitionVanishes(s: Store)
    requires ReferringExtractor().Valid()
    requires IsReferringSnapshot(s.files, "k") && IsReferringSnapshot(s.base, "l")
    requires s.rows == FullGraph(ReferringExtractor(), s.files)
    requires Complete(s, "d") && s.state.lifecycle == Ready && !s.state.resolveAll
    requires s.state.inputDigest == Some(InputDigest("d", s.files, ""))
    requires FingerprintsOf(s.symbols, "f") == map[]
    ensures "r" in After(ReferringExtractor(), "d", s, Build("")).rows
    ensures After(ReferringExtractor(), "d", s, Build("")).rows["r"].targetEntity == Some("e")
  {
    ReferringPlan(s);
    NothingAffected(s, PlanOf(s, "d", ""));
    ReferenceBefore(s.files);
    ReferenceNotFresh(s.base);
    MissedChange(ReferringExtractor(), s, "r");
  }

  lemma ReferringRows(base: Snapshot)
    requires ReferringExtractor().Valid() && "g" in base
    ensures
      var x := ReferringExtractor();
      "r" in DerivedRows(x, base) && DerivedRows(x, base)["r"].file == "g" && "r" in FullGraph(x, base) &&
      FullGraph(x, base)["r"].file == "g" &&
      FullGraph(x, base)["r"].targetEntity == NaiveTarget("a", "g", EntitiesOf(x, base)).entity
  {
    var x := ReferringExtractor();
    assert "r" in x.rows("g", base["g"]);
  }

  lemma AdoptionIsLegal(x: Extractor, s: Store, m: Snapshot)
    requires x.Valid()
    ensures IsStep(x, "d", s, Adopt(FullGraph(x, m), m, Some(InputDigest("d", m, ""))), AdoptedInto(x, s, m))
  {
  }

  /** What a fresh store looks like once the adopted graph was rebound and `f` changed again. */
  lemma MisledSymbols(s: Store, m: Snapshot, n: Snapshot)
    requires ReferringExtractor().Valid() && s.state.lifecycle == NeverBuilt
    requires IsReferringSnapshot(s.base, "j") && IsReferringSnapshot(m, "k")
    ensures
      var r := ReboundTo(ReferringExtractor(), s, m);
      r.rows == FullGraph(ReferringExtractor(), m) && r.files == m && FingerprintsOf(r.symbols, "f") == map[] &&
      Complete(r, "d") && r.state.lifecycle == Ready && !r.state.resolveAll &&
      r.state.inputDigest == Some(InputDigest("d", m, ""))
  {
    var x := ReferringExtractor();
    AdoptedThenRebound(x, s, m);
    assert x.entities("f", s.base["f"]) == [];
  }

  lemma VanishedTargetStays(s: Store, m: Snapshot, n: Snapshot)
    requires ReferringExtractor().Valid() && s.state.lifecycle == NeverBuilt
    requires IsReferringSnapshot(s.base, "j") && IsReferringSnapshot(m, "k") && IsReferringSnapshot(n, "l")
    ensures
      var x := ReferringExtractor();
      var built := After(x, "d", After(x, "d", ReboundTo(x, s, m), Update(n, 3)), Build(""));
      "r" in built.rows && built.rows["r"].targetEntity == Some("e")
  {
    MisledSymbols(s, m, n);
    DefinitionVanishes(After(ReferringExtractor(), "d", ReboundTo(ReferringExtractor(), s, m), Update(n, 3)));
  }

  lemma OtherDefinitions(into: Snapshot, m: Snapshot)
    requires ReferringExtractor().Valid() && IsReferringSnapshot(into, "j") && IsReferringSnapshot(m, "k")
    ensures !SameDefinitions(ReferringExtractor(), into, m)
  {
    var x := ReferringExtractor();
    CandidatesInOrder(x.entities("f", "j"), NameKey("a"));
    CandidatesInOrder(x.entities("f", "k"), NameKey("a"));
    assert x.entities("f", "j") == [] && x.entities("f", "k")[0] in x.entities("f", "k");
    assert FingerprintIn(x, into, "f", NameKey("a")) != FingerprintIn(x, m, "f", NameKey("a"));
  }

  /** A rebind right after an adoption and an update is trusted only if the
      update restored the definitions adopted into. */
  lemma TrustAfterAdoption(
    x: Extractor, derivation: string, states: seq<Store>, events: seq<Event>)
    requires x.Valid() && IsRun(x, derivation, states, events) && |events| >= 3
    requires events[0].Adopt? && events[1].Update? && events[2].Build?
    requires PlanOf(states[2], derivation, events[2].extra).action.Rebind?
    ensures BuildTrusted(x, derivation, states[2], NotesAt(x, derivation, states, events, 2), events[2])
      <==> SameDefinitions(x, states[0].base, states[2].base)
  {
    assert IsStep(x, derivation, states[0], events[0], states[1]);
    assert IsStep(x, derivation, states[1], events[1], states[2]);
    assert NotesAt(x, derivation, states, events, 1).into == states[0].base;
  }

  lemma FiveSteps(
    x: Extractor, derivation: string, s0: Store, e0: Event, s1: Store, e1: Event, s2: Store, e2: Event,
    s3: Store, e3: Event, s4: Store, e4: Event, s5: Store)
    requires x.Valid() && Fresh(s0)
    requires IsStep(x, derivation, s0, e0, s1) && IsStep(x, derivation, s1, e1, s2)
    requires IsStep(x, derivation, s2, e2, s3) && IsStep(x, derivation, s3, e3, s4)
    requires IsStep(x, derivation, s4, e4, s5)
    ensures IsRun(x, derivation, [s0, s1, s2, s3, s4, s5], [e0, e1, e2, e3, e4])
  {
    FourSteps(x, derivation, s0, e0, s1, e1, s2, e2, s3, e3, s4);
    OneMoreStep(x, derivation, [s0, s1, s2, s3, s4], [e0, e1, e2, e3], e4, s5);
    assert [s0, s1, s2, s3, s4] + [s5] == [s0, s1, s2, s3, s4, s5];
    assert [e0, e1, e2, e3] + [e4] == [e0, e1, e2, e3, e4];
  }

  /** Adopt the graph of `m`, return to `m`, rebind, move on to `n` and build. */
  ghost function AdoptedRun(x: Extractor, s: Store, m: Snapshot, n: Snapshot): (r: (seq<Store>, seq<Event>))
    requires x.Valid()
  {
    var s1 := AdoptedInto(x, s, m);
    var s2 := After(x, "d", s1, Update(m, 2));
    var s3 := After(x, "d", s2, Build(""));
    var s4 := After(x, "d", s3, Update(n, 3));
    ([s, s1, s2, s3, s4, After(x, "d", s4, Build(""))],
     [Adopt(FullGraph(x, m), m, Some(InputDigest("d", m, ""))), Update(m, 2), Build(""), Update(n, 3), Build("")])
  }

  lemma AdoptedRunIsRun(x: Extractor, s: Store, m: Snapshot, n: Snapshot)
    requires x.Valid() && Fresh(s)
    ensures IsRun(x, "d", AdoptedRun(x, s, m, n).0, AdoptedRun(x, s, m, n).1)
  {
    var states, events := AdoptedRun(x, s, m, n).0, AdoptedRun(x, s, m, n).1;
    AdoptionIsLegal(x, s, m);
    FiveSteps(x, "d", states[0], events[0], states[1], events[1], states[2], events[2],
              states[3], events[3], states[4], events[4], states[5]);
  }

  lemma AdoptedRunIsRebound(x: Extractor, s: Store, m: Snapshot, n: Snapshot)
    requires x.Valid() && s.base.Keys == m.Keys && s.state.lifecycle == NeverBuilt
    ensures PlanOf(AdoptedRun(x, s, m, n).0[2], "d", "").action == Rebind
  {
    AdoptedRows(x, s, m);
  }

  lemma AdoptedRunIsUntrusted(s: Store, m: Snapshot, n: Snapshot)
    requires ReferringExtractor().Valid() && Fresh(s)
    requires IsReferringSnapshot(s.base, "j") && IsReferringSnapshot(m, "k")
    ensures
      var x := ReferringExtractor();
      var states, events := AdoptedRun(x, s, m, n).0, AdoptedRun(x, s, m, n).1;
      !BuildTrusted(x, "d", states[2], NotesAt(x, "d", states, events, 2), events[2])
  {
    var x := ReferringExtractor();
    AdoptedRunIsRun(x, s, m, n);
    AdoptedRunIsRebound(x, s, m, n);
    OtherDefinitions(s.base, m);
    TrustAfterAdoption(x, "d", AdoptedRun(x, s, m, n).0, AdoptedRun(x, s, m, n).1);
  }

  lemma AdoptedRunKeepsTarget(s: Store, m: Snapshot, n: Snapshot)
    requires ReferringExtractor().Valid() && Fresh(s)
    requires IsReferringSnapshot(s.base, "j") && IsReferringSnapshot(m, "k") && IsReferringSnapshot(n, "l")
    ensures
      var states := AdoptedRun(ReferringExtractor(), s, m, n).0;
      "r" in states[5].rows && states[5].rows["r"].targetEntity == Some("e") && states[4].base == n
  {
    VanishedTargetStays(s, m, n);
  }

  ghost predicate Misled(x: Extractor, states: seq<Store>, events: seq<Event>)
    requires x.Valid() && IsRun(x, "d", states, events)
  {
    && |events| == 5 && events[2].Build? && events[4].Build?
    && !BuildTrusted(x, "d", states[2], NotesAt(x, "d", states, events, 2), events[2])
    && "r" in states[5].rows && states[5].rows["r"].targetEntity == Some("e")
    && "r" in FullGraph(x, states[4].base) && FullGraph(x, states[4].base)["r"].targetEntity == None
  }

  lemma AdoptedRunMisleads(s: Store, m: Snapshot, n: Snapshot) returns (states: seq<Store>, events: seq<Event>)
    requires ReferringExtractor().Valid() && Fresh(s)
    requires IsReferringSnapshot(s.base, "j") && IsReferringSnapshot(m, "k") && IsReferringSnapshot(n, "l")
    ensures IsRun(ReferringExtractor(), "d", states, events) && Misled(ReferringExtractor(), states, events)
  {
    var x := ReferringExtractor();
    AdoptedRunIsRun(x, s, m, n);
    AdoptedRunIsUntrusted(s, m, n);
    AdoptedRunKeepsTarget(s, m, n);
    ReferenceAfter(n);
    states, events := AdoptedRun(x, s, m, n).0, AdoptedRun(x, s, m, n).1;
  }

  /** Why a rebind after an adoption must find the definitions adopted into. A
      run from a fresh store: the graph of {f:k, g} is adopted while the base
      holds {f:j, g}, the base returns to {f:k, g} and is rebound; once `f` loses
      its definition the reference of `g` keeps pointing at the vanished entity. */
  lemma AdoptedSymbolsMislead() returns (x: Extractor, states: seq<Store>, events: seq<Event>)
    ensures x.Valid() && IsRun(x, "d", states, events) && Misled(x, states, events)
  {
    ReferringValid();
    x := ReferringExtractor();
    var s := NewStore(map["f" := "j", "g" := "h"]);
    states, events := AdoptedRunMisleads(s, map["f" := "k", "g" := "h"], map["f" := "l", "g" := "h"]);
  }
}
