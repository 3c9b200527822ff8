/** The project store the graph stage works on: planning and building in
    place, proved against the specification of `GraphStage`. */
module GraphStore {
  import opened Wrappers
  import opened Sorting
  import opened Resolution
  import opened GraphInputs
  import opened GraphStage

  datatype GraphError = StaleInputs | Republished

  /** A base publication by another process while the graph is derived. */
  datatype Publication = Publication(base: Snapshot, finishedAt: nat)

  method Listed(files: set<FileId>) returns (s: seq<FileId>)
    ensures Elements(s) == files
  {
    s := [];
    var todo := files;
    while todo != {}
      invariant todo <= files
      invariant Elements(s) == files - todo
    {
      var f :| f in todo;
      assert Elements(s + [f]) == Elements(s) + {f};
      s := s + [f];
      todo := todo - {f};
    }
  }

  lemma AppendDistinct(x: Extractor, base: Snapshot, done: set<FileId>, all: seq<Entity>, f: FileId)
    requires x.Valid() && f in base && f !in done
    requires Distinct(all)
    requires forall e :: e in all <==> e.file in done && e.file in base && e in x.entities(e.file, base[e.file])
    ensures Distinct(all + x.entities(f, base[f]))
  {
  }

  ghost predicate ListsItsChanges(s: Store, plan: Plan)
  {
    !plan.full ==> ListsChanges(s, plan)
  }

  class ProjectStore {
    const x: Extractor
    var base: Snapshot
    var published: Generation
    var rows: map<RowId, Row>
    var state: GraphState
    var files: Snapshot
    var symbols: map<FileId, FileSymbols>

    /** What the store holds, as one value. */
    ghost function Value(): Store
      reads this
    {
      Store(base, published, rows, state, files, symbols)
    }

    constructor (x: Extractor, base: Snapshot, published: Generation)
      ensures this.x == x
      ensures Value() == Store(base, published, map[],
        GraphState(NeverBuilt, 0, None, None, None, None, 0, false, false), map[], map[])
    {
      this.x := x;
      this.base, this.published, rows, files, symbols := base, published, map[], map[], map[];
      state := GraphState(NeverBuilt, 0, None, None, None, None, 0, false, false);
    }

    /** Compares the recorded manifest with the published files. */
    method PlanGraph(derivation: string, extra: string) returns (plan: Plan)
      ensures plan == PlanOf(Value(), derivation, extra)
    {
      var digest := InputDigest(derivation, base, extra);
      var sameRows := state.baseBuild == Some(published.build);
      var sameDerivation := state.derivation == Some(derivation);
      var complete := sameRows && sameDerivation && state.ManifestUsable();
      var added, modified, removed: set<FileId> := {}, {}, {};
      var todo := base.Keys;
      while todo != {}
        invariant todo <= base.Keys
        invariant added == set f | f in base.Keys - todo && complete && f !in files
        invariant modified == set f | f in base.Keys - todo && (complete ==> f in files && files[f] != base[f])
      {
        var f :| f in todo;
        if !complete {
          modified := modified + {f};
        } else if f !in files {
          added := added + {f};
        } else if files[f] != base[f] {
          modified := modified + {f};
        }
        todo := todo - {f};
      }
      if complete {
        removed := set f | f in files && f !in base;
      }
      assert added == if complete then base.Keys - files.Keys else {};
      assert modified == if complete then set f | f in base && f in files && base[f] != files[f] else base.Keys;
      assert removed == if complete then files.Keys - base.Keys else {};
      if state.lifecycle == Ready && state.baseGeneration == Some(published) && sameDerivation
         && state.inputDigest == Some(digest) {
        return Plan(Skip, false, published, digest, added, modified, removed);
      }
      if complete && state.inputDigest == Some(digest) {
        return Plan(Rebind, false, published, digest, added, modified, removed);
      }
      var retry := state.lifecycle == Failed || state.lifecycle == Stale || state.lifecycle == Building;
      if !complete {
        return Plan(if retry then Retry else Full, true, published, digest, added, modified, removed);
      }
      if retry {
        return Plan(Retry, false, published, digest, added, modified, removed);
      }
      return Plan(Incremental, false, published, digest, added, modified, removed);
    }

    /** Re-reads and parses `changed`; a file whose content is no longer the
        published one makes the graph stale. `disk` is what reading finds. */
    method Derive(changed: set<FileId>, disk: Snapshot) returns (r: Result<map<RowId, Row>, GraphError>)
      requires x.Valid() && changed <= base.Keys
      ensures r.Ok? <==> forall f :: f in changed && x.isCode(base[f]) ==> f in disk && disk[f] == base[f]
      ensures r.Ok? ==> r.value == FreshRows(x, base, changed)
    {
      var staged: map<RowId, Row> := map[];
      var todo := changed;
      while todo != {}
        invariant todo <= changed
        invariant forall f :: f in changed - todo && x.isCode(base[f]) ==> f in disk && disk[f] == base[f]
        invariant staged == FreshRows(x, base, changed - todo)
      {
        var f :| f in todo;
        if x.isCode(base[f]) {
          if f !in disk || disk[f] != base[f] {
            return Err(StaleInputs);
          }
          FreshRowsGrow(x, base, changed - todo, f);
          staged := staged + x.rows(f, base[f]);
        } else {
          FreshRowsGrow(x, base, changed - todo, f);
          assert x.rows(f, base[f]) == map[];
        }
        assert changed - (todo - {f}) == (changed - todo) + {f};
        todo := todo - {f};
      }
      assert changed - todo == changed;
      r := Ok(staged);
    }

    /** Every entity of the base build, in storage order. */
    method AllEntities() returns (all: seq<Entity>)
      requires x.Valid()
      ensures Ordered(QualifiedOrder, all) && Distinct(all) && Elements(all) == EntitiesOf(x, base)
    {
      all := [];
      var todo := base.Keys;
      while todo != {}
        invariant todo <= base.Keys
        invariant Distinct(all)
        invariant forall e :: e in all <==>
          e.file in base.Keys - todo && e.file in base && e in x.entities(e.file, base[e.file])
      {
        var f :| f in todo;
        AppendDistinct(x, base, base.Keys - todo, all, f);
        all := all + x.entities(f, base[f]);
        todo := todo - {f};
      }
      var listed := all;
      all := StableSort(QualifiedOrder, listed);
      OrdersAreTotal();
      SortOrders(QualifiedOrder, listed);
      SameElements(all, listed);
      DistinctSorted(QualifiedOrder, listed);
    }

    /** The stored rows that depend on other files. */
    function CrossFileReferences(): map<RowId, Row>
      reads this
    {
      map id | id in rows && rows[id].IsCrossFileReference() :: rows[id]
    }

    /** Deletes the rows of every changed file, then those of files the base no longer has. */
    method ClearChanged(changed: set<FileId>)
      modifies this`rows
      ensures rows == KeptRows(old(Value()), changed)
    {
      var todo := changed;
      while todo != {}
        invariant todo <= changed
        invariant rows == map id | id in old(rows) && old(rows)[id].file !in changed - todo :: old(rows)[id]
      {
        var f :| f in todo;
        rows := map id | id in rows && rows[id].file != f :: rows[id];
        todo := todo - {f};
      }
      rows := map id | id in rows && rows[id].file in base :: rows[id];
    }

    /** Re-resolves the references of `targets` (every reference when `whole`). */
    method Resolve(whole: bool, targets: set<FileId>)
      requires x.Valid() && (whole ==> forall id :: id in rows ==> rows[id].file in targets)
      modifies this`rows
      ensures rows == ResolvedIn(old(rows), targets, EntitiesOf(x, base))
    {
      var all := AllEntities();
      var refs := CrossFileReferences();
      var outcomes;
      ghost var examined := refs;
      if whole {
        outcomes := ResolveBuild(all, refs);
      } else {
        var list := Listed(targets);
        outcomes := ResolveFiles(all, refs, list);
        examined := ReferencesOf(refs, targets);
      }
      AppliedOutcomes(rows, examined, outcomes, EntitiesOf(x, base));
      rows := ApplyResolutions(rows, outcomes);
    }

    /** The symbol keys whose candidates changed in a changed or removed file. */
    method CollectKeys(current: map<FileId, FileSymbols>, lookedUp: set<FileId>) returns (keys: set<SymbolKey>)
      ensures keys == KeysChanged(symbols, current, lookedUp)
    {
      keys := {};
      var todo := lookedUp;
      while todo != {}
        invariant todo <= lookedUp
        invariant keys == KeysChanged(symbols, current, lookedUp - todo)
      {
        var f :| f in todo;
        keys := keys + ChangedKeys(FingerprintsOf(symbols, f), FingerprintsOf(current, f));
        todo := todo - {f};
      }
    }

    /** Rows and symbols of a build over every file: nothing of the manifest is reused. */
    method PublishWhole()
      requires x.Valid() && forall id :: id in rows ==> rows[id].file in base
      modifies this`rows, this`symbols, this`files
      ensures rows == ResolvedIn(old(rows), base.Keys, EntitiesOf(x, base))
      ensures symbols == SymbolsOfFiles(x, base, rows, base.Keys) && files == base
    {
      Resolve(true, base.Keys);
      symbols := map f | f in base :: SymbolsOfFile(x.entities(f, base[f]), rows, f);
      files := base;
    }

    /** Rows and symbols of a scoped build: the changed files and their symbol
        dependents are resolved again, only the changed files' symbols are written. */
    method PublishScoped(changed: set<FileId>, removed: set<FileId>)
      requires x.Valid() && changed <= base.Keys
      modifies this`rows, this`symbols, this`files
      ensures
        var current := SymbolsOfFiles(x, base, old(rows), changed);
        var keys := KeysChanged(old(symbols), current, changed + removed);
        rows == ResolvedIn(old(rows), changed + (Dependents(old(symbols), keys) * base.Keys), EntitiesOf(x, base)) &&
        symbols == (old(symbols) - removed) + current
      ensures files == (old(files) - removed) + map f | f in changed :: base[f]
    {
      var current := map f | f in changed :: SymbolsOfFile(x.entities(f, base[f]), rows, f);
      assert current == SymbolsOfFiles(x, base, rows, changed);
      var keys := CollectKeys(current, changed + removed);
      var targets := changed + (Dependents(symbols, keys) * base.Keys);
      Resolve(false, targets);
      symbols := (symbols - removed) + current;
      files := (files - removed) + map f | f in changed :: base[f];
    }

    /** Clears what is derived anew and puts the derived rows in. */
    method SwapRows(full: bool, changed: set<FileId>, derived: map<RowId, Row>)
      modifies this`rows
      ensures rows == (if full then map[] else KeptRows(old(Value()), changed)) + derived
    {
      if full {
        rows := map[];
      } else {
        ClearChanged(changed);
      }
      rows := rows + derived;
    }

    /** Swaps the derived rows in, resolves, and records the new state. */
    method SwapIn(ghost s: Store, derivation: string, plan: Plan, derived: map<RowId, Row>)
      requires x.Valid() && Value() == s.(state := s.state.(lifecycle := Building))
      requires derived == FreshRows(x, base, plan.Changed(base))
      requires ListsItsChanges(s, plan)
      requires plan.inputDigest.derivation == derivation
      modifies this
      ensures Value() == AfterDerivation(x, s, plan)
    {
      SwapRows(plan.full, plan.Changed(base), derived);
      assert rows == StagedRows(x, s, plan) by { KeptRegardless(s, state, plan.Changed(base)); }
      StagedWithinBase(x, s, plan);
      if plan.full || state.resolveAll {
        PublishWhole();
        WholeMatches(x, s, plan);
      } else {
        PublishScoped(plan.Changed(base), plan.removed);
        ScopedMatches(x, s, plan);
        ScopedFiles(s, plan);
      }
      state := GraphState(Ready, state.generation + 1, Some(published.build), Some(published),
                          Some(derivation), Some(plan.inputDigest), MANIFEST_VERSION, true, false);
    }

    /** A base publication by another process. */
    method Republish(publication: Option<Publication>)
      modifies this`base, this`published
      ensures publication.None? ==> base == old(base) && published == old(published)
      ensures publication.Some? ==> base == publication.value.base
      ensures publication.Some? ==> published == old(published).(finishedAt := publication.value.finishedAt)
    {
      if publication.Some? {
        base, published := publication.value.base, published.(finishedAt := publication.value.finishedAt);
      }
    }

    /** Only the snapshot binding moves, fenced against a concurrent publication. */
    method RebindPlanned(plan: Plan, publication: Option<Publication>) returns (r: Result<(), GraphError>)
      requires plan.expectedBase == published
      requires publication.Some? ==> publication.value.finishedAt != published.finishedAt
      modifies this`base, this`published, this`state
      ensures r.Ok? <==> publication.None?
      ensures r.Ok? ==> base == old(base) && published == old(published)
      ensures r.Ok? ==> state.lifecycle == Ready && state.baseGeneration == Some(published) && !state.resolveAll
      ensures state.generation == old(state.generation) && state.baseBuild == old(state.baseBuild)
      ensures state.derivation == old(state.derivation) && state.inputDigest == old(state.inputDigest)
      ensures state.manifestVersion == old(state.manifestVersion)
      ensures state.metadataComplete == old(state.metadataComplete)
      ensures r.Err? ==> state == old(state)
    {
      Republish(publication);
      if published != plan.expectedBase {
        return Err(Republished);
      }
      state := state.(lifecycle := Ready, baseGeneration := Some(published), resolveAll := false);
      return Ok(());
    }

    /** Every file to derive still has its published content on disk. */
    ghost predicate InputsUnchanged(plan: Plan, disk: Snapshot)
      reads this
    {
      forall f :: f in plan.Changed(base) && x.isCode(base[f]) ==> f in disk && disk[f] == base[f]
    }

    /** Derives the changed files and checks that the base is still the planned one. */
    method DeriveFenced(plan: Plan, disk: Snapshot, publication: Option<Publication>)
      returns (r: Result<map<RowId, Row>, GraphError>)
      requires x.Valid() && plan.expectedBase == published
      requires publication.Some? ==> publication.value.finishedAt != published.finishedAt
      modifies this`base, this`published, this`state
      ensures r.Ok? <==> publication.None? && old(InputsUnchanged(plan, disk))
      ensures publication.None? ==> base == old(base) && published == old(published)
      ensures state == old(state).(lifecycle := if r.Ok? then Building else Stale)
      ensures r.Ok? ==> r.value == FreshRows(x, old(base), plan.Changed(old(base)))
    {
      state := state.(lifecycle := Building);
      r := Derive(plan.Changed(base), disk);
      Republish(publication);
      if r.Ok? && published != plan.expectedBase {
        r := Err(Republished);
      }
      if r.Err? {
        state := state.(lifecycle := Stale);
      }
    }

    /** Executes a plan that derives files. `disk` is what re-reading the files
        finds, `publication` a base publication that commits before this
        build's transaction starts. On an error the graph tables are as before. */
    method BuildPlanned(derivation: string, plan: Plan, disk: Snapshot, publication: Option<Publication>)
      returns (r: Result<(), GraphError>)
      requires x.Valid() && plan.expectedBase == published && plan.inputDigest.derivation == derivation
      requires ListsItsChanges(Value(), plan)
      requires publication.Some? ==> publication.value.finishedAt != published.finishedAt
      modifies this
      ensures r.Ok? <==> publication.None? && old(InputsUnchanged(plan, disk))
      ensures r.Ok? ==> Value() == AfterDerivation(x, old(Value()), plan)
      ensures r.Err? ==> rows == old(rows) && files == old(files) && symbols == old(symbols)
      ensures r.Err? ==> state == old(state).(lifecycle := Stale)
      ensures publication.None? ==> base == old(base) && published == old(published)
    {
      ghost var s := Value();
      var derived := DeriveFenced(plan, disk, publication);
      if derived.Err? {
        return Err(derived.error);
      }
      SwapIn(s, derivation, plan, derived.value);
      return Ok(());
    }

    /** Plans and executes the graph work of the published base. */
    method BuildGraph(derivation: string, extra: string, disk: Snapshot, publication: Option<Publication>)
      returns (r: Result<(), GraphError>)
      requires x.Valid()
      requires publication.Some? ==> publication.value.finishedAt != published.finishedAt
      modifies this
      ensures var plan := PlanOf(old(Value()), derivation, extra);
        r.Ok? <==> (
          plan.action.Skip? ||
          (publication.None? &&
           (plan.action.Rebind? || old(InputsUnchanged(PlanOf(Value(), derivation, extra), disk)))))
      ensures r.Ok? ==> Value() == AfterPlan(x, old(Value()), PlanOf(old(Value()), derivation, extra))
      ensures r.Ok? ==> IsCurrent(Value(), derivation, extra)
      ensures r.Ok? ==> PlanOf(Value(), derivation, extra).action == Skip
      ensures r.Err? ==> rows == old(rows) && files == old(files) && symbols == old(symbols)
    {
      PlanListsChanges(Value(), derivation, extra);
      BuiltGraphIsCurrent(x, Value(), derivation, extra);
      var plan := PlanGraph(derivation, extra);
      match plan.action
      case Skip => r := Ok(());
      case Rebind => r := RebindPlanned(plan, publication);
      case _ => r := BuildPlanned(derivation, plan, disk, publication);
    }
  }

  lemma PlanListsChanges(s: Store, derivation: string, extra: string)
    ensures var plan := PlanOf(s, derivation, extra);
      plan.expectedBase == s.published && plan.inputDigest.derivation == derivation &&
      (!plan.action.Skip? ==> ListsItsChanges(s, plan))
  {
  }

  lemma StagedWithinBase(x: Extractor, s: Store, plan: Plan)
    requires x.Valid()
    ensures forall id :: id in StagedRows(x, s, plan) ==> StagedRows(x, s, plan)[id].file in s.base
  {
  }

  lemma KeptRegardless(s: Store, state: GraphState, changed: set<FileId>)
    ensures KeptRows(s.(state := state), changed) == KeptRows(s, changed)
  {
  }

  lemma WholeMatches(x: Extractor, s: Store, plan: Plan)
    requires x.Valid() && (plan.full || s.state.resolveAll)
    ensures BuiltRows(x, s, plan) == ResolvedIn(StagedRows(x, s, plan), s.base.Keys, EntitiesOf(x, s.base))
    ensures BuiltSymbols(x, s, plan) == SymbolsOfFiles(x, s.base, BuiltRows(x, s, plan), s.base.Keys)
  {
  }

  lemma ScopedMatches(x: Extractor, s: Store, plan: Plan)
    requires x.Valid() && !plan.full && !s.state.resolveAll
    ensures
      var changed := plan.Changed(s.base);
      var current := SymbolsOfFiles(x, s.base, StagedRows(x, s, plan), changed);
      var keys := KeysChanged(s.symbols, current, changed + plan.removed);
      BuiltRows(x, s, plan) == ResolvedIn(StagedRows(x, s, plan),
        changed + (Dependents(s.symbols, keys) * s.base.Keys), EntitiesOf(x, s.base)) &&
      BuiltSymbols(x, s, plan) == (s.symbols - plan.removed) + current
  {
  }

  lemma ScopedFiles(s: Store, plan: Plan)
    requires !plan.full && ListsChanges(s, plan)
    ensures (s.files - plan.removed) + (map f | f in plan.Changed(s.base) :: s.base[f]) == s.base
  {
  }

  lemma RowOfFile(x: Extractor, base: Snapshot, f: FileId, id: RowId)
    requires x.Valid() && f in base
    ensures id in x.rows(f, base[f]) <==> id in DerivedRows(x, base) && DerivedRows(x, base)[id].file == f
    ensures id in x.rows(f, base[f]) ==> DerivedRows(x, base)[id] == x.rows(f, base[f])[id]
  {
  }

  lemma FilterGrows(derived: map<RowId, Row>, own: map<RowId, Row>, done: set<FileId>, f: FileId)
    requires forall id :: id in own <==> id in derived && derived[id].file == f
    requires forall id :: id in own ==> derived[id] == own[id]
    ensures (map id | id in derived && derived[id].file in done + {f} :: derived[id]) ==
            (map id | id in derived && derived[id].file in done :: derived[id]) + own
  {
  }

  lemma FreshRowsGrow(x: Extractor, base: Snapshot, done: set<FileId>, f: FileId)
    requires x.Valid() && f in base
    ensures FreshRows(x, base, done + {f}) == FreshRows(x, base, done) + x.rows(f, base[f])
  {
    var derived, own := DerivedRows(x, base), x.rows(f, base[f]);
    assert forall id :: id in own <==> id in derived && derived[id].file == f by {
      forall id { RowOfFile(x, base, f, id); }
    }
    FilterGrows(derived, own, done, f);
  }
}
