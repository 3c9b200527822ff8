/** The post-index relationship graph stage: planning, scoped re-resolution
    and the equality of every build with a derivation from scratch. */
module GraphStage {
  import opened Wrappers
  import opened Resolution
  import opened GraphInputs

  type BuildId = string

  /** One publication of a base build. */
  datatype Generation = Generation(build: BuildId, finishedAt: nat)

  /** The digest of everything a graph is derived from; equal digests have equal inputs. */
  datatype InputDigest = InputDigest(derivation: string, files: Snapshot, extra: string)

  datatype Lifecycle = Disabled | NeverBuilt | Building | Ready | Stale | Failed

  const MANIFEST_VERSION: nat := 3

  datatype GraphState = GraphState(
    lifecycle: Lifecycle,
    generation: nat,
    baseBuild: Option<BuildId>,
    baseGeneration: Option<Generation>,
    derivation: Option<string>,
    inputDigest: Option<InputDigest>,
    manifestVersion: nat,
    metadataComplete: bool,
    resolveAll: bool)
  {
    predicate ManifestUsable()
    {
      metadataComplete && manifestVersion == MANIFEST_VERSION
    }
  }

  /** Symbols one file defines (with their candidate fingerprints) and looks up. */
  datatype FileSymbols = FileSymbols(refs: set<SymbolKey>, fingerprints: map<SymbolKey, seq<EntityId>>)

  /** One project store: the published base build, its relationship rows, the
      graph state and the dependency manifest. */
  datatype Store = Store(
    base: Snapshot,
    published: Generation,
    rows: map<RowId, Row>,
    state: GraphState,
    files: Snapshot,
    symbols: map<FileId, FileSymbols>)

  // ---- symbols ---------------------------------------------------------------

  /** The keys a cross-file reference is resolved through. */
  function ReferenceKeys(r: Row): set<SymbolKey>
  {
    if r.IsCrossFileReference() then {QualifiedKey(r.reference.value), NameKey(Bare(r.reference.value))} else {}
  }

  function EntityKeys(entities: seq<Entity>): (keys: set<SymbolKey>)
  {
    (set e | e in entities :: QualifiedKey(e.qualifiedName)) + (set e | e in entities :: NameKey(e.name))
  }

  /** The current symbols of file `f`, read from its entities and its stored rows. */
  function SymbolsOfFile(entities: seq<Entity>, rows: map<RowId, Row>, f: FileId): FileSymbols
  {
    FileSymbols(
      set id, k | id in rows && rows[id].file == f && k in ReferenceKeys(rows[id]) :: k,
      map k | k in EntityKeys(entities) :: Fingerprint(entities, k))
  }

  function FingerprintsOf(symbols: map<FileId, FileSymbols>, f: FileId): map<SymbolKey, seq<EntityId>>
  {
    if f in symbols then symbols[f].fingerprints else map[]
  }

  function FingerprintAt(symbols: map<FileId, FileSymbols>, f: FileId, key: SymbolKey): seq<EntityId>
  {
    if key in FingerprintsOf(symbols, f) then FingerprintsOf(symbols, f)[key] else []
  }

  /** Definition keys whose candidates differ (a missing side has none). */
  function ChangedKeys(before: map<SymbolKey, seq<EntityId>>, after: map<SymbolKey, seq<EntityId>>): set<SymbolKey>
  {
    set k | k in before.Keys + after.Keys &&
      ((k in before) != (k in after) || (k in before && k in after && before[k] != after[k])) :: k
  }

  /** Every recorded file with a reference through one of `keys`. */
  function Dependents(symbols: map<FileId, FileSymbols>, keys: set<SymbolKey>): set<FileId>
  {
    set f | f in symbols && symbols[f].refs * keys != {}
  }

  // ---- planning ----------------------------------------------------------------

  datatype Action = Skip | Rebind | Incremental | Full | Retry

  datatype Plan = Plan(
    action: Action,
    full: bool,
    expectedBase: Generation,
    inputDigest: InputDigest,
    added: set<FileId>,
    modified: set<FileId>,
    removed: set<FileId>)
  {
    /** The files derived anew. */
    function Changed(base: Snapshot): set<FileId>
    {
      if full then base.Keys else (added + modified) * base.Keys
    }
  }

  predicate SameDerivation(state: GraphState, derivation: string)
  {
    state.derivation == Some(derivation)
  }

  /** The recorded rows belong to this build and derivation, with a usable manifest. */
  predicate Complete(s: Store, derivation: string)
  {
    s.state.baseBuild == Some(s.published.build) && SameDerivation(s.state, derivation) && s.state.ManifestUsable()
  }

  function ActionOf(s: Store, derivation: string, extra: string): Action
  {
    var digest := Some(InputDigest(derivation, s.base, extra));
    var retry := s.state.lifecycle.Failed? || s.state.lifecycle.Stale? || s.state.lifecycle.Building?;
    if s.state.lifecycle.Ready? && s.state.baseGeneration == Some(s.published)
       && SameDerivation(s.state, derivation) && s.state.inputDigest == digest then Skip
    else if Complete(s, derivation) && s.state.inputDigest == digest then Rebind
    else if retry then Retry
    else if Complete(s, derivation) then Incremental
    else Full
  }

  /** The graph work due for the published base of `s`. */
  function PlanOf(s: Store, derivation: string, extra: string): Plan
  {
    var complete := Complete(s, derivation);
    var action := ActionOf(s, derivation, extra);
    Plan(
      action,
      !complete && action != Skip,
      s.published,
      InputDigest(derivation, s.base, extra),
      if complete then s.base.Keys - s.files.Keys else {},
      if complete then set f | f in s.base && f in s.files && s.base[f] != s.files[f] else s.base.Keys,
      if complete then s.files.Keys - s.base.Keys else {})
  }

  // ---- what a build leaves behind ---------------------------------------------

  /** The rows kept from the committed graph: files neither changed nor gone. */
  function KeptRows(s: Store, changed: set<FileId>): map<RowId, Row>
  {
    map id | id in s.rows && s.rows[id].file in s.base && s.rows[id].file !in changed :: s.rows[id]
  }

  ghost function FreshRows(x: Extractor, s: Snapshot, changed: set<FileId>): map<RowId, Row>
    requires x.Valid()
  {
    map id | id in DerivedRows(x, s) && DerivedRows(x, s)[id].file in changed :: DerivedRows(x, s)[id]
  }

  /** The rows before re-resolution. */
  ghost function StagedRows(x: Extractor, s: Store, plan: Plan): map<RowId, Row>
    requires x.Valid()
  {
    var changed := plan.Changed(s.base);
    (if plan.full then map[] else KeptRows(s, changed)) + FreshRows(x, s.base, changed)
  }

  ghost function SymbolsOfFiles(
    x: Extractor, base: Snapshot, rows: map<RowId, Row>, files: set<FileId>): map<FileId, FileSymbols>
  {
    map f | f in files && f in base :: SymbolsOfFile(x.entities(f, base[f]), rows, f)
  }

  /** The keys whose candidates in one of `files` differ between two sets of symbols. */
  function KeysChanged(
    before: map<FileId, FileSymbols>, after: map<FileId, FileSymbols>, files: set<FileId>): set<SymbolKey>
  {
    set f, k | f in files && k in ChangedKeys(FingerprintsOf(before, f), FingerprintsOf(after, f)) :: k
  }

  /** Symbol keys whose candidates in a changed or removed file differ from what was recorded. */
  ghost function AffectedKeys(x: Extractor, s: Store, plan: Plan): set<SymbolKey>
    requires x.Valid()
  {
    KeysChanged(s.symbols, SymbolsOfFiles(x, s.base, StagedRows(x, s, plan), plan.Changed(s.base)),
                plan.Changed(s.base) + plan.removed)
  }

  /** The files whose references are resolved again. */
  ghost function Targets(x: Extractor, s: Store, plan: Plan): set<FileId>
    requires x.Valid()
  {
    if plan.full || s.state.resolveAll then s.base.Keys
    else plan.Changed(s.base) + (Dependents(s.symbols, AffectedKeys(x, s, plan)) * s.base.Keys)
  }

  /** `rows` with the references of `targets` resolved from scratch. */
  ghost function ResolvedIn(rows: map<RowId, Row>, targets: set<FileId>, entities: set<Entity>): map<RowId, Row>
  {
    map id | id in rows :: if rows[id].file in targets then ResolvedRow(rows[id], entities) else rows[id]
  }

  /** The relationship rows a build publishes. */
  ghost function BuiltRows(x: Extractor, s: Store, plan: Plan): map<RowId, Row>
    requires x.Valid()
  {
    ResolvedIn(StagedRows(x, s, plan), Targets(x, s, plan), EntitiesOf(x, s.base))
  }

  /** The dependency manifest's symbols after a build. */
  ghost function BuiltSymbols(x: Extractor, s: Store, plan: Plan): map<FileId, FileSymbols>
    requires x.Valid()
  {
    if plan.full || s.state.resolveAll then SymbolsOfFiles(x, s.base, BuiltRows(x, s, plan), s.base.Keys)
    else
      (s.symbols - plan.removed) + SymbolsOfFiles(x, s.base, StagedRows(x, s, plan), plan.Changed(s.base))
  }

  function CommittedState(s: Store, plan: Plan): GraphState
  {
    GraphState(Ready, s.state.generation + 1, Some(s.published.build), Some(s.published),
               Some(plan.inputDigest.derivation), Some(plan.inputDigest), MANIFEST_VERSION, true, false)
  }

  function ReboundState(s: Store): GraphState
  {
    s.state.(lifecycle := Ready, baseGeneration := Some(s.published), resolveAll := false)
  }

  /** The store after the planned files were derived and resolved. */
  ghost function AfterDerivation(x: Extractor, s: Store, plan: Plan): Store
    requires x.Valid()
  {
    s.(rows := BuiltRows(x, s, plan), state := CommittedState(s, plan), files := s.base,
       symbols := BuiltSymbols(x, s, plan))
  }

  /** The store after the planned work succeeded. */
  ghost function AfterPlan(x: Extractor, s: Store, plan: Plan): Store
    requires x.Valid()
  {
    match plan.action
    case Skip => s
    case Rebind => s.(state := ReboundState(s))
    case _ => AfterDerivation(x, s, plan)
  }

  // ---- the committed graph's invariant -----------------------------------------

  /** Every stored row is the one a derivation of `files` from scratch has. */
  ghost predicate RowsExact(x: Extractor, rows: map<RowId, Row>, files: Snapshot)
    requires x.Valid()
  {
    forall id :: id in rows ==> id in FullGraph(x, files) && rows[id] == FullGraph(x, files)[id]
  }

  /** The recorded fingerprints are those of `files`. */
  ghost predicate SymbolsExact(x: Extractor, symbols: map<FileId, FileSymbols>, files: Snapshot)
  {
    forall f, key :: FingerprintAt(symbols, f, key) == FingerprintIn(x, files, f, key)
  }

  /** No recorded fingerprint is empty: a key is recorded only with candidates. */
  ghost predicate SymbolsNonEmpty(symbols: map<FileId, FileSymbols>)
  {
    forall f, key :: key in FingerprintsOf(symbols, f) ==> FingerprintsOf(symbols, f)[key] != []
  }

  /** Every stored cross-file reference is found through its symbol keys. */
  ghost predicate ReferencesRecorded(rows: map<RowId, Row>, symbols: map<FileId, FileSymbols>)
  {
    forall id :: id in rows && rows[id].IsCrossFileReference() ==>
      rows[id].file in symbols && ReferenceKeys(rows[id]) <= symbols[rows[id].file].refs
  }

  ghost predicate SymbolsRight(x: Extractor, s: Store)
  {
    SymbolsExact(x, s.symbols, s.files) && SymbolsNonEmpty(s.symbols) && ReferencesRecorded(s.rows, s.symbols)
  }

  /** The recorded input digest is that of the manifest, and only a complete
      graph is bound to the published build. */
  ghost predicate BindingRight(derivation: string, s: Store)
  {
    && (Complete(s, derivation) && s.state.inputDigest.Some? ==> s.state.inputDigest.value.files == s.files)
    && ((s.state.baseGeneration.Some? && s.state.baseGeneration.value.build == s.published.build
         && SameDerivation(s.state, derivation)) ==> Complete(s, derivation))
  }

  ghost predicate Inv(x: Extractor, derivation: string, s: Store)
    requires x.Valid()
  {
    && BindingRight(derivation, s)
    && (Complete(s, derivation) ==> RowsExact(x, s.rows, s.files))
    && (Complete(s, derivation) && !s.state.resolveAll ==> SymbolsRight(x, s))
  }

  /** No unchanged file the manifest lists has lost its rows. */
  ghost predicate NothingLost(x: Extractor, s: Store, plan: Plan)
  {
    plan.full ||
    forall f :: f in s.base && f in s.files && s.files[f] == s.base[f] ==> x.rows(f, s.base[f]).Keys <= s.rows.Keys
  }

  // ---- correctness of one build --------------------------------------------------

  /** The plan's change set is the difference between the manifest and the base. */
  ghost predicate ListsChanges(s: Store, plan: Plan)
  {
    && plan.removed == s.files.Keys - s.base.Keys
    && plan.added == s.base.Keys - s.files.Keys
    && plan.modified == set f | f in s.base && f in s.files && s.base[f] != s.files[f]
  }

  lemma KeptRowDerived(x: Extractor, s: Store, plan: Plan, id: RowId)
    requires x.Valid() && RowsExact(x, s.rows, s.files)
    requires id in s.rows && s.rows[id].file in s.base && s.rows[id].file in s.files
    requires s.files[s.rows[id].file] == s.base[s.rows[id].file]
    ensures id in DerivedRows(x, s.base)
    ensures DerivedRows(x, s.base)[id] == DerivedRows(x, s.files)[id]
    ensures DerivedRows(x, s.base)[id].file == s.rows[id].file
    ensures s.rows[id] == ResolvedRow(DerivedRows(x, s.base)[id], EntitiesOf(x, s.files))
  {
    var f := s.rows[id].file;
    assert DerivedRows(x, s.files)[id].file == f;
    assert id in x.rows(f, s.files[f]);
  }

  /** Resolving again what was resolved gives what resolving from scratch gives. */
  lemma ResolvedTwice(r: Row, e1: set<Entity>, e2: set<Entity>)
    ensures ResolvedRow(ResolvedRow(r, e1), e2) == ResolvedRow(r, e2)
  {
  }

  lemma ChangedKeyFound(
    before: map<SymbolKey, seq<EntityId>>, after: map<SymbolKey, seq<EntityId>>, k: SymbolKey)
    requires forall j :: j in before ==> before[j] != []
    requires forall j :: j in after ==> after[j] != []
    requires k !in ChangedKeys(before, after)
    ensures (if k in before then before[k] else []) == (if k in after then after[k] else [])
  {
  }

  lemma KeyOfEntity(entities: seq<Entity>, e: Entity, key: SymbolKey)
    requires e in entities && key.Of(e)
    ensures key in EntityKeys(entities)
  {
  }

  lemma FreshFingerprints(entities: seq<Entity>, rows: map<RowId, Row>, f: FileId, key: SymbolKey)
    ensures var fps := SymbolsOfFile(entities, rows, f).fingerprints;
      (key in fps ==> fps[key] != []) &&
      (if key in fps then fps[key] else []) == Fingerprint(entities, key)
  {
    CandidatesInOrder(entities, key);
    var c := Candidates(entities, key);
    if c != [] {
      assert c[0] in c;
      KeyOfEntity(entities, c[0], key);
    }
    if key in EntityKeys(entities) {
      var e :| e in entities && key.Of(e);
      assert e in c;
    }
  }

  /** A key outside the affected keys has the same candidates in every file as before. */
  lemma UnaffectedKey(x: Extractor, s: Store, plan: Plan, key: SymbolKey, f: FileId)
    requires x.Valid() && !plan.full
    requires SymbolsExact(x, s.symbols, s.files) && SymbolsNonEmpty(s.symbols)
    requires ListsChanges(s, plan)
    requires key !in AffectedKeys(x, s, plan)
    ensures FingerprintIn(x, s.files, f, key) == FingerprintIn(x, s.base, f, key)
  {
    var changed := plan.Changed(s.base);
    if f in changed + plan.removed {
      var rows := StagedRows(x, s, plan);
      var current := SymbolsOfFiles(x, s.base, rows, changed);
      var before, after := FingerprintsOf(s.symbols, f), FingerprintsOf(current, f);
      forall j | j in after
        ensures after[j] != []
      {
        FreshFingerprints(x.entities(f, s.base[f]), rows, f, j);
      }
      forall j | j in before
        ensures before[j] != []
      {
        assert j in FingerprintsOf(s.symbols, f);
      }
      ChangedKeyFound(before, after, key);
      assert FingerprintAt(s.symbols, f, key) == FingerprintIn(x, s.files, f, key);
      if f in changed {
        FreshFingerprints(x.entities(f, s.base[f]), rows, f, key);
      }
    }
  }

  lemma NotDependent(symbols: map<FileId, FileSymbols>, keys: set<SymbolKey>, key: SymbolKey, file: FileId)
    requires file in symbols && key in symbols[file].refs && file !in Dependents(symbols, keys)
    ensures key !in keys
  {
    var common := symbols[file].refs * keys;
    assert common == {};
    assert key in common <==> key in keys;
  }

  lemma UnaffectedReference(x: Extractor, s: Store, plan: Plan, key: SymbolKey, file: FileId)
    requires x.Valid() && !plan.full && SymbolsRight(x, s) && ListsChanges(s, plan)
    requires !s.state.resolveAll
    requires file in s.base && file !in Targets(x, s, plan)
    requires file in s.symbols && key in s.symbols[file].refs
    ensures SameFingerprints(x, s.files, s.base, file, key)
  {
    NotDependent(s.symbols, AffectedKeys(x, s, plan), key, file);
    forall g | g != file
      ensures FingerprintIn(x, s.files, g, key) == FingerprintIn(x, s.base, g, key)
    {
      UnaffectedKey(x, s, plan, key, g);
    }
  }

  lemma ResolvedRowKeepsReference(r: Row, entities: set<Entity>)
    ensures ResolvedRow(r, entities).reference == r.reference
    ensures ResolvedRow(r, entities).file == r.file
    ensures ResolvedRow(r, entities).IsCrossFileReference() == r.IsCrossFileReference()
  {
  }

  /** Scoped re-resolution misses nothing: a kept row of a file that is not a
      target already has its from-scratch resolution. */
  lemma UntouchedRowStillRight(x: Extractor, s: Store, plan: Plan, id: RowId)
    requires x.Valid() && !plan.full && !s.state.resolveAll
    requires RowsExact(x, s.rows, s.files) && SymbolsRight(x, s) && ListsChanges(s, plan)
    requires id in KeptRows(s, plan.Changed(s.base)) && s.rows[id].file !in Targets(x, s, plan)
    ensures id in FullGraph(x, s.base) && s.rows[id] == FullGraph(x, s.base)[id]
  {
    var r := s.rows[id];
    assert r.file in s.files by { assert id in FullGraph(x, s.files); }
    KeptRowDerived(x, s, plan, id);
    var derived := DerivedRows(x, s.base)[id];
    ResolvedRowKeepsReference(derived, EntitiesOf(x, s.files));
    if derived.IsCrossFileReference() {
      var text := r.reference.value;
      assert QualifiedKey(text) in ReferenceKeys(r) && NameKey(Bare(text)) in ReferenceKeys(r);
      UnaffectedReference(x, s, plan, QualifiedKey(text), r.file);
      UnaffectedReference(x, s, plan, NameKey(Bare(text)), r.file);
      SameFingerprintsSameTarget(x, s.files, s.base, r.file, text);
    }
  }

  lemma FullRowsAreRight(x: Extractor, s: Store, plan: Plan)
    requires x.Valid() && plan.full
    ensures BuiltRows(x, s, plan) == FullGraph(x, s.base)
  {
    AllFresh(x, s.base);
    ResolvedEverywhere(DerivedRows(x, s.base), s.base.Keys, EntitiesOf(x, s.base));
  }

  lemma ResolvedEverywhere(rows: map<RowId, Row>, targets: set<FileId>, entities: set<Entity>)
    requires forall id :: id in rows ==> rows[id].file in targets
    ensures ResolvedIn(rows, targets, entities) == map id | id in rows :: ResolvedRow(rows[id], entities)
  {
  }

  lemma AllFresh(x: Extractor, base: Snapshot)
    requires x.Valid()
    ensures map[] + FreshRows(x, base, base.Keys) == DerivedRows(x, base)
  {
  }

  /** Every row an incremental build publishes is the from-scratch row. */
  lemma BuiltRowRight(x: Extractor, s: Store, plan: Plan, id: RowId)
    requires x.Valid() && !plan.full && ListsChanges(s, plan)
    requires RowsExact(x, s.rows, s.files)
    requires !s.state.resolveAll ==> SymbolsRight(x, s)
    requires id in BuiltRows(x, s, plan)
    ensures id in FullGraph(x, s.base) && BuiltRows(x, s, plan)[id] == FullGraph(x, s.base)[id]
  {
    var changed := plan.Changed(s.base);
    var staged := StagedRows(x, s, plan);
    if id in FreshRows(x, s.base, changed) {
      assert staged[id] == DerivedRows(x, s.base)[id];
    } else {
      assert id in KeptRows(s, changed) && staged[id] == s.rows[id];
      var f := s.rows[id].file;
      assert f in s.files by { assert id in FullGraph(x, s.files); }
      KeptRowDerived(x, s, plan, id);
      if f in Targets(x, s, plan) {
        ResolvedTwice(DerivedRows(x, s.base)[id], EntitiesOf(x, s.files), EntitiesOf(x, s.base));
      } else {
        UntouchedRowStillRight(x, s, plan, id);
      }
    }
  }

  /** An incremental build has every row exactly when no unchanged file had lost one. */
  lemma BuiltRowsComplete(x: Extractor, s: Store, plan: Plan)
    requires x.Valid() && !plan.full && ListsChanges(s, plan)
    requires RowsExact(x, s.rows, s.files)
    ensures DerivedRows(x, s.base).Keys <= BuiltRows(x, s, plan).Keys <==> NothingLost(x, s, plan)
  {
    var changed := plan.Changed(s.base);
    var derived := DerivedRows(x, s.base);
    if NothingLost(x, s, plan) {
      forall id | id in derived
        ensures id in BuiltRows(x, s, plan)
      {
        var f := derived[id].file;
        if f in changed {
          assert id in FreshRows(x, s.base, changed);
        } else {
          assert id in s.rows;
          assert id in FullGraph(x, s.files);
          assert DerivedRows(x, s.files)[id].file == f;
        }
      }
    }
    if derived.Keys <= BuiltRows(x, s, plan).Keys {
      forall f, id | f in s.base && f in s.files && s.files[f] == s.base[f] && id in x.rows(f, s.base[f])
        ensures id in s.rows
      {
        assert id in derived && derived[id].file == f;
        assert id in StagedRows(x, s, plan);
        assert f !in changed;
      }
    }
  }

  /** All rows of the listed file `f` are stored. */
  ghost predicate RowsStored(x: Extractor, s: Store, f: FileId)
    requires f in s.files
  {
    x.rows(f, s.files[f]).Keys <= s.rows.Keys
  }

  lemma RowBelongs(x: Extractor, rows: map<RowId, Row>, files: Snapshot, f: FileId, id: RowId)
    requires x.Valid() && RowsExact(x, rows, files) && f in files && id in x.rows(f, files[f]) && id in rows
    ensures rows[id].file == f
  {
    assert rows[id] == FullGraph(x, files)[id];
    assert DerivedRows(x, files)[id].file == f;
  }

  /** An incremental build has all rows of a file exactly when the file was
      derived anew or its rows were all stored before. */
  lemma StoredAfterBuild(x: Extractor, s: Store, plan: Plan, f: FileId)
    requires x.Valid() && !plan.full && ListsChanges(s, plan)
    requires RowsExact(x, s.rows, s.files) && f in s.base
    ensures f !in plan.Changed(s.base) ==> f in s.files && s.files[f] == s.base[f]
    ensures x.rows(f, s.base[f]).Keys <= BuiltRows(x, s, plan).Keys
      <==> f in plan.Changed(s.base) || RowsStored(x, s, f)
  {
    var changed := plan.Changed(s.base);
    forall id | id in x.rows(f, s.base[f])
      ensures id in BuiltRows(x, s, plan) <==> f in changed || id in s.rows
    {
      assert DerivedRows(x, s.base)[id].file == f;
      if f in changed {
        assert id in FreshRows(x, s.base, changed);
      } else if id in s.rows {
        RowBelongs(x, s.rows, s.files, f, id);
      }
    }
  }

  lemma PlanFacts(derivation: string, s: Store, extra: string)
    requires BindingRight(derivation, s)
    ensures var plan := PlanOf(s, derivation, extra);
      (!plan.full ==> Complete(s, derivation) && ListsChanges(s, plan)) &&
      (plan.action.Skip? || plan.action.Rebind? ==> !plan.full && s.files == s.base)
  {
  }

  lemma PartEqualsWhole<K, V>(part: map<K, V>, whole: map<K, V>)
    requires forall k :: k in part ==> k in whole && part[k] == whole[k]
    ensures part == whole <==> whole.Keys <= part.Keys
  {
  }

  lemma ExactAndComplete(x: Extractor, rows: map<RowId, Row>, files: Snapshot)
    requires x.Valid() && RowsExact(x, rows, files)
    ensures rows == FullGraph(x, files) <==> DerivedRows(x, files).Keys <= rows.Keys
  {
    PartEqualsWhole(rows, FullGraph(x, files));
  }

  lemma NothingLostUnchanged(x: Extractor, s: Store, plan: Plan)
    requires x.Valid() && !plan.full && s.files == s.base
    ensures NothingLost(x, s, plan) <==> DerivedRows(x, s.base).Keys <= s.rows.Keys
  {
  }

  /** Whatever the planner chooses (skip, rebind, incremental, retry or full),
      every relationship row afterwards is the one a derivation of the current
      base from scratch has, and none is missing exactly when no unchanged
      file had lost its rows before. */
  lemma BuildIsFromScratch(x: Extractor, derivation: string, s: Store, extra: string)
    requires x.Valid() && Inv(x, derivation, s)
    ensures var plan := PlanOf(s, derivation, extra); var after := AfterPlan(x, s, plan);
      RowsExact(x, after.rows, s.base) &&
      (after.rows == FullGraph(x, s.base) <==> NothingLost(x, s, plan))
  {
    var plan := PlanOf(s, derivation, extra);
    PlanFacts(derivation, s, extra);
    if plan.action.Skip? || plan.action.Rebind? {
      ExactAndComplete(x, s.rows, s.base);
      NothingLostUnchanged(x, s, plan);
    } else if plan.full {
      FullRowsAreRight(x, s, plan);
    } else {
      forall id | id in BuiltRows(x, s, plan)
        ensures id in FullGraph(x, s.base) && BuiltRows(x, s, plan)[id] == FullGraph(x, s.base)[id]
      {
        BuiltRowRight(x, s, plan, id);
      }
      ExactAndComplete(x, BuiltRows(x, s, plan), s.base);
      BuiltRowsComplete(x, s, plan);
    }
  }

  // ---- the manifest a build leaves behind ---------------------------------------

  lemma RecordedSymbols(
    x: Extractor, base: Snapshot, rows: map<RowId, Row>, files: set<FileId>, f: FileId, key: SymbolKey)
    requires f in files && f in base
    ensures var symbols := SymbolsOfFiles(x, base, rows, files);
      FingerprintAt(symbols, f, key) == FingerprintIn(x, base, f, key) &&
      (key in FingerprintsOf(symbols, f) ==> FingerprintsOf(symbols, f)[key] != [])
  {
    FreshFingerprints(x.entities(f, base[f]), rows, f, key);
  }

  lemma RecordedReferences(x: Extractor, base: Snapshot, rows: map<RowId, Row>, files: set<FileId>, id: RowId)
    requires id in rows && rows[id].file in files && rows[id].file in base
    ensures ReferenceKeys(rows[id]) <= SymbolsOfFiles(x, base, rows, files)[rows[id].file].refs
  {
  }

  lemma WholeManifestRight(x: Extractor, s: Store, plan: Plan)
    requires x.Valid() && (plan.full || s.state.resolveAll)
    requires forall id :: id in BuiltRows(x, s, plan) ==> BuiltRows(x, s, plan)[id].file in s.base
    ensures SymbolsExact(x, BuiltSymbols(x, s, plan), s.base)
    ensures SymbolsNonEmpty(BuiltSymbols(x, s, plan))
    ensures ReferencesRecorded(BuiltRows(x, s, plan), BuiltSymbols(x, s, plan))
  {
    var rows := BuiltRows(x, s, plan);
    var symbols := BuiltSymbols(x, s, plan);
    forall f, key
      ensures FingerprintAt(symbols, f, key) == FingerprintIn(x, s.base, f, key)
      ensures key in FingerprintsOf(symbols, f) ==> FingerprintsOf(symbols, f)[key] != []
    {
      if f in s.base { RecordedSymbols(x, s.base, rows, s.base.Keys, f, key); }
    }
    forall id | id in rows
      ensures rows[id].file in symbols && ReferenceKeys(rows[id]) <= symbols[rows[id].file].refs
    {
      RecordedReferences(x, s.base, rows, s.base.Keys, id);
    }
  }

  lemma DeltaLookup(x: Extractor, s: Store, plan: Plan, f: FileId)
    requires x.Valid() && !plan.full && !s.state.resolveAll
    ensures var changed := plan.Changed(s.base);
      FingerprintsOf(BuiltSymbols(x, s, plan), f) ==
        if f in changed then FingerprintsOf(SymbolsOfFiles(x, s.base, StagedRows(x, s, plan), changed), f)
        else if f in plan.removed then map[]
        else FingerprintsOf(s.symbols, f)
  {
  }

  lemma UnchangedFingerprint(x: Extractor, s: Store, plan: Plan, f: FileId, key: SymbolKey)
    requires !plan.full && ListsChanges(s, plan) && f !in plan.Changed(s.base)
    ensures FingerprintIn(x, s.base, f, key) ==
      if f in plan.removed then [] else FingerprintIn(x, s.files, f, key)
  {
  }

  lemma DeltaFingerprints(x: Extractor, s: Store, plan: Plan, f: FileId, key: SymbolKey)
    requires x.Valid() && !plan.full && !s.state.resolveAll && ListsChanges(s, plan)
    requires SymbolsExact(x, s.symbols, s.files) && SymbolsNonEmpty(s.symbols)
    ensures var symbols := BuiltSymbols(x, s, plan);
      FingerprintAt(symbols, f, key) == FingerprintIn(x, s.base, f, key) &&
      (key in FingerprintsOf(symbols, f) ==> FingerprintsOf(symbols, f)[key] != [])
  {
    DeltaLookup(x, s, plan, f);
    if f in plan.Changed(s.base) {
      RecordedSymbols(x, s.base, StagedRows(x, s, plan), plan.Changed(s.base), f, key);
    } else {
      UnchangedFingerprint(x, s, plan, f, key);
      assert FingerprintAt(s.symbols, f, key) == FingerprintIn(x, s.files, f, key);
    }
  }

  lemma DeltaReferences(x: Extractor, s: Store, plan: Plan, id: RowId)
    requires x.Valid() && !plan.full && !s.state.resolveAll && ListsChanges(s, plan)
    requires ReferencesRecorded(s.rows, s.symbols)
    requires id in BuiltRows(x, s, plan) && BuiltRows(x, s, plan)[id].IsCrossFileReference()
    ensures var r := BuiltRows(x, s, plan)[id]; var symbols := BuiltSymbols(x, s, plan);
      r.file in symbols && ReferenceKeys(r) <= symbols[r.file].refs
  {
    var changed := plan.Changed(s.base);
    var staged := StagedRows(x, s, plan);
    ResolvedRowKeepsReference(staged[id], EntitiesOf(x, s.base));
    var f := staged[id].file;
    if f in changed {
      RecordedReferences(x, s.base, staged, changed, id);
    } else {
      assert id !in FreshRows(x, s.base, changed);
      assert id in KeptRows(s, changed);
      assert f in s.base;
    }
  }

  /** The manifest written back describes the base just built, whether the
      whole of it was rewritten or only the changed files. */
  lemma ManifestRight(x: Extractor, s: Store, plan: Plan)
    requires x.Valid() && (!plan.full ==> ListsChanges(s, plan))
    requires !plan.full && !s.state.resolveAll ==> SymbolsRight(x, s)
    requires forall id :: id in BuiltRows(x, s, plan) ==> BuiltRows(x, s, plan)[id].file in s.base
    ensures SymbolsExact(x, BuiltSymbols(x, s, plan), s.base)
    ensures SymbolsNonEmpty(BuiltSymbols(x, s, plan))
    ensures ReferencesRecorded(BuiltRows(x, s, plan), BuiltSymbols(x, s, plan))
  {
    if plan.full || s.state.resolveAll {
      WholeManifestRight(x, s, plan);
    } else {
      forall f, key
        ensures FingerprintAt(BuiltSymbols(x, s, plan), f, key) == FingerprintIn(x, s.base, f, key)
        ensures key in FingerprintsOf(BuiltSymbols(x, s, plan), f) ==>
          FingerprintsOf(BuiltSymbols(x, s, plan), f)[key] != []
      {
        DeltaFingerprints(x, s, plan, f, key);
      }
      forall id | id in BuiltRows(x, s, plan) && BuiltRows(x, s, plan)[id].IsCrossFileReference()
        ensures BuiltRows(x, s, plan)[id].file in BuiltSymbols(x, s, plan)
        ensures ReferenceKeys(BuiltRows(x, s, plan)[id]) <=
          BuiltSymbols(x, s, plan)[BuiltRows(x, s, plan)[id].file].refs
      {
        DeltaReferences(x, s, plan, id);
      }
    }
  }

  /** A rebind trusts the recorded symbols; after an adoption they must be those of the manifest. */
  ghost predicate RebindTrustworthy(x: Extractor, s: Store, plan: Plan)
    requires x.Valid()
  {
    plan.action.Rebind? && s.state.resolveAll ==> SymbolsRight(x, s)
  }

  lemma BuildKeepsBinding(x: Extractor, derivation: string, s: Store, extra: string)
    requires x.Valid() && BindingRight(derivation, s)
    ensures BindingRight(derivation, AfterPlan(x, s, PlanOf(s, derivation, extra)))
  {
  }

  /** A full build needs no trust in what is recorded, and leaves everything right. */
  lemma FullBuildIsRight(x: Extractor, derivation: string, s: Store, extra: string)
    requires x.Valid() && BindingRight(derivation, s) && PlanOf(s, derivation, extra).full
    ensures
      var after := AfterPlan(x, s, PlanOf(s, derivation, extra));
      after.rows == FullGraph(x, s.base) && Inv(x, derivation, after)
  {
    var plan := PlanOf(s, derivation, extra);
    PlanFacts(derivation, s, extra);
    BuildKeepsBinding(x, derivation, s, extra);
    FullRowsAreRight(x, s, plan);
    forall id | id in BuiltRows(x, s, plan)
      ensures BuiltRows(x, s, plan)[id].file in s.base
    {
      assert DerivedRows(x, s.base)[id].file in s.base;
    }
    WholeManifestRight(x, s, plan);
  }

  lemma DerivationKeepsInvariant(x: Extractor, derivation: string, s: Store, extra: string)
    requires x.Valid() && Inv(x, derivation, s)
    requires !PlanOf(s, derivation, extra).action.Skip? && !PlanOf(s, derivation, extra).action.Rebind?
    ensures Inv(x, derivation, AfterPlan(x, s, PlanOf(s, derivation, extra)))
  {
    var plan := PlanOf(s, derivation, extra);
    PlanFacts(derivation, s, extra);
    BuildIsFromScratch(x, derivation, s, extra);
    var rows := BuiltRows(x, s, plan);
    forall id | id in rows
      ensures rows[id].file in s.base
    {
      assert id in FullGraph(x, s.base);
      assert DerivedRows(x, s.base)[id].file in s.base;
    }
    ManifestRight(x, s, plan);
  }

  lemma RebindKeepsInvariant(x: Extractor, derivation: string, s: Store, extra: string)
    requires x.Valid() && Inv(x, derivation, s) && PlanOf(s, derivation, extra).action.Rebind?
    ensures Inv(x, derivation, s.(state := ReboundState(s))) <==> (s.state.resolveAll ==> SymbolsRight(x, s))
  {
    var after := s.(state := ReboundState(s));
    assert SymbolsRight(x, after) <==> SymbolsRight(x, s);
    assert Complete(s, derivation) && Complete(after, derivation);
  }

  /** The invariant survives whatever is planned, except exactly a rebind that
      clears the request to resolve everything although the recorded symbols
      are not those of the manifest. */
  lemma BuildKeepsInvariant(x: Extractor, derivation: string, s: Store, extra: string)
    requires x.Valid() && Inv(x, derivation, s)
    ensures Inv(x, derivation, AfterPlan(x, s, PlanOf(s, derivation, extra)))
      <==> RebindTrustworthy(x, s, PlanOf(s, derivation, extra))
  {
    var plan := PlanOf(s, derivation, extra);
    if plan.action.Rebind? {
      RebindKeepsInvariant(x, derivation, s, extra);
    } else if !plan.action.Skip? {
      DerivationKeepsInvariant(x, derivation, s, extra);
    }
  }

  // ---- what the plans mean ------------------------------------------------------------

  /** The graph is ready, bound to the published base and derived from these very inputs. */
  ghost predicate IsCurrent(s: Store, derivation: string, extra: string)
  {
    && s.state.lifecycle == Ready && s.state.baseGeneration == Some(s.published)
    && s.state.derivation == Some(derivation) && IsDerivedFrom(s, derivation, extra)
  }

  /** The recorded inputs are the published files under this derivation and these manual links. */
  ghost predicate IsDerivedFrom(s: Store, derivation: string, extra: string)
  {
    match s.state.inputDigest
    case Some(d) => d.derivation == derivation && d.files == s.base && d.extra == extra
    case None => false
  }

  /** Rows and manifest are of this base build and derivation, in the current format, and complete. */
  ghost predicate IsReusable(s: Store, derivation: string)
  {
    && s.state.baseBuild == Some(s.published.build) && s.state.derivation == Some(derivation)
    && s.state.metadataComplete && s.state.manifestVersion == 3
  }

  ghost predicate WasInterrupted(s: Store)
  {
    s.state.lifecycle == Building || s.state.lifecycle == Failed || s.state.lifecycle == Stale
  }

  /** When which work is planned: none for a current graph; only the binding for
      reusable rows of the same inputs; otherwise a derivation, of everything
      exactly when the rows are not reusable. */
  lemma PlannedWhen(s: Store, derivation: string, extra: string)
    ensures var action := PlanOf(s, derivation, extra).action;
      && (action == Skip <==> IsCurrent(s, derivation, extra))
      && (action == Rebind <==>
          !IsCurrent(s, derivation, extra) && IsReusable(s, derivation) && IsDerivedFrom(s, derivation, extra))
      && (action == Retry ==> WasInterrupted(s))
      && (action == Incremental ==> !WasInterrupted(s) && IsReusable(s, derivation))
      && (action == Full ==> !WasInterrupted(s) && !IsReusable(s, derivation))
    ensures PlanOf(s, derivation, extra).full <==>
      !IsCurrent(s, derivation, extra) && !IsReusable(s, derivation)
  {
  }

  /** Which files a planned derivation concerns: with reusable rows those whose
      key is not the recorded one, and the ones that are gone; otherwise all. */
  lemma PlannedFiles(s: Store, derivation: string, extra: string, f: FileId)
    ensures var plan := PlanOf(s, derivation, extra);
      plan.expectedBase == s.published && plan.inputDigest == InputDigest(derivation, s.base, extra)
    ensures IsReusable(s, derivation) ==>
      var plan := PlanOf(s, derivation, extra);
      && (f in plan.Changed(s.base) <==> f in s.base && !(f in s.files && s.files[f] == s.base[f]))
      && (f in plan.removed <==> f in s.files && f !in s.base)
    ensures !IsReusable(s, derivation) ==>
      var plan := PlanOf(s, derivation, extra);
      (f in plan.Changed(s.base) <==> f in s.base) && plan.removed == {}
  {
  }

  /** Whatever was planned, afterwards the graph is current, so that the next
      plan for the same base is to skip; its rows are reusable unless it was current before. */
  lemma BuiltGraphIsCurrent(x: Extractor, s: Store, derivation: string, extra: string)
    requires x.Valid()
    ensures
      var plan := PlanOf(s, derivation, extra); var after := AfterPlan(x, s, plan);
      && IsCurrent(after, derivation, extra) && PlanOf(after, derivation, extra).action == Skip
      && after.base == s.base && after.published == s.published
      && (plan.action != Skip ==> IsReusable(after, derivation) && !after.state.resolveAll)
      && after.state.generation == (if plan.action == Skip || plan.action == Rebind then s.state.generation
                                    else s.state.generation + 1)
  {
    PlannedWhen(s, derivation, extra);
    PlannedWhen(AfterPlan(x, s, PlanOf(s, derivation, extra)), derivation, extra);
  }

  /** Some key the file was recorded to look up has other candidates in another file than before. */
  ghost predicate LooksUpChanged(x: Extractor, s: Store, f: FileId)
  {
    f in s.symbols && exists key, g :: key in s.symbols[f].refs && Differs(x, s, g, key)
  }

  ghost predicate Differs(x: Extractor, s: Store, g: FileId, key: SymbolKey)
  {
    FingerprintIn(x, s.files, g, key) != FingerprintIn(x, s.base, g, key)
  }

  lemma KeyDiffers(before: map<SymbolKey, seq<EntityId>>, after: map<SymbolKey, seq<EntityId>>, k: SymbolKey)
    requires k in before ==> before[k] != []
    requires k in after ==> after[k] != []
    ensures k in ChangedKeys(before, after) <==>
      (if k in before then before[k] else []) != (if k in after then after[k] else [])
  {
  }

  lemma AffectedInFile(x: Extractor, s: Store, plan: Plan, g: FileId, key: SymbolKey)
    requires x.Valid() && !plan.full && ListsChanges(s, plan)
    requires SymbolsExact(x, s.symbols, s.files) && SymbolsNonEmpty(s.symbols)
    requires g in plan.Changed(s.base) + plan.removed
    ensures
      var current := SymbolsOfFiles(x, s.base, StagedRows(x, s, plan), plan.Changed(s.base));
      key in ChangedKeys(FingerprintsOf(s.symbols, g), FingerprintsOf(current, g)) <==> Differs(x, s, g, key)
  {
    var changed, rows := plan.Changed(s.base), StagedRows(x, s, plan);
    var current := SymbolsOfFiles(x, s.base, rows, changed);
    assert FingerprintAt(s.symbols, g, key) == FingerprintIn(x, s.files, g, key);
    if g in changed {
      RecordedSymbols(x, s.base, rows, changed, g, key);
    }
    KeyDiffers(FingerprintsOf(s.symbols, g), FingerprintsOf(current, g), key);
  }

  lemma AffectedIff(x: Extractor, s: Store, plan: Plan, key: SymbolKey)
    requires x.Valid() && !plan.full && ListsChanges(s, plan)
    requires SymbolsExact(x, s.symbols, s.files) && SymbolsNonEmpty(s.symbols)
    ensures key in AffectedKeys(x, s, plan) <==> exists g :: Differs(x, s, g, key)
  {
    var touched := plan.Changed(s.base) + plan.removed;
    forall g | g in touched {
      AffectedInFile(x, s, plan, g, key);
    }
    forall g | Differs(x, s, g, key)
      ensures g in touched
    {
      assert !(g in s.files && g in s.base && s.files[g] == s.base[g]);
    }
  }

  lemma DependentIff(symbols: map<FileId, FileSymbols>, keys: set<SymbolKey>, f: FileId)
    ensures f in Dependents(symbols, keys) <==> f in symbols && exists key :: key in symbols[f].refs && key in keys
  {
    if f in symbols {
      var common := symbols[f].refs * keys;
      assert forall key :: key in common <==> key in symbols[f].refs && key in keys;
      if f in Dependents(symbols, keys) {
        var key :| key in common;
      }
    }
  }

  /** The scope of an incremental build is exact: besides the changed files it
      resolves again those files, and only those, that look up a symbol whose
      candidates are no longer the same in some file. */
  lemma ScopeIsExact(x: Extractor, s: Store, plan: Plan, f: FileId)
    requires x.Valid() && !plan.full && !s.state.resolveAll && ListsChanges(s, plan)
    requires SymbolsExact(x, s.symbols, s.files) && SymbolsNonEmpty(s.symbols)
    ensures f in Targets(x, s, plan) <==> f in s.base && (f in plan.Changed(s.base) || LooksUpChanged(x, s, f))
  {
    DependentIff(s.symbols, AffectedKeys(x, s, plan), f);
    assert plan.Changed(s.base) <= s.base.Keys;
    assert f in Dependents(s.symbols, AffectedKeys(x, s, plan)) <==> LooksUpChanged(x, s, f) by {
      forall key {
        AffectedIff(x, s, plan, key);
      }
    }
  }
}
