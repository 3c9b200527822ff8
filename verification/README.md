# Verified model of DocMonk's publication, graph, chunking and change detection

This project models the parts of DocMonk whose correctness spans several
functions or whole runs, and proves them with Dafny. Check it with
`dafny verify dfyconfig.toml`.

**Server publication.** Each source has one state document, written by
compare-and-swap: the active and the pending build, the lease, the retired
builds and the graph record. Records carry the set of builds they belong to.
`StateDocument` holds the document, the lease check and every write;
`Interleaving` lets any number of workers, each with an operation thread and a
lease heartbeat, interleave reads, decisions, clock ticks and writes with lost
replies; `Fencing` and `GraphFencing` prove what holds of every commit log that
can arise. `Records`, `SerialisedRuns`, `CopyForward` and `Publication` are about
what readers of a build see; `Backend` is the class with the operations, whose
every method extends a recorded run that the run theorems apply to.
`GraphStaging`, `GraphPublication` and `GraphCollection` do the same for graph
generations, `Bulk` for the adaptive bulk writer.

**Incremental relationship graph.** `Resolution` states cross-file resolution
naively and proves the whole-build and the per-file procedure against it,
`LocalResolution` the two-stage resolution of one reference. `GraphInputs`,
`GraphStage` and `GraphRuns` prove that planned, scoped builds equal a derivation
from scratch over whole histories; `GraphStore` is the store the planner and the
builder change in place.

**Token-budget chunking.** `Text`, `Tokens`, `Splitting`, `Grouping`, `Packing`,
`Chunking`, `Tables`, `Headings` and `DocumentChunks` follow a document from the
normalized headings to its chunks: nothing is lost or reordered, budgets hold,
links and paths survive.

**Change detection, traversal, prompt text.** `Diff`, `Traverse`, `Neutralize`.

`Wrappers` and `Sorting` are shared helpers.

## Assumptions

- Digests and identifiers are injective: a digest is modelled as the content it
  was computed from, a record or row id fixes its owning file.
- Build and generation ids are new when they are begun; owners of leases are not
  empty; there is one clock that never runs back.
- The tokenizer encodes each word on its own and gives whitespace no tokens, so
  counting is additive over joins with whitespace.
- Offsets of tokens stay inside their word and do not run backwards; a token may be
  zero characters wide.
- Paths are unique in a scan and in a baseline.
- Extraction is a given function of a file and its semantic key.

## Where the code does less than its comments say

- Carrying the graph forward and adopting a graph drop the rows of files the base
  lacks, while the manifest keeps listing them. A file that returns unchanged is
  then neither derived nor re-resolved. `GraphRuns.EveryBuildIsFromScratch` gives
  the exact condition on the history, `GraphRuns.ReturningFileLosesRows` a run.
- A rebind after an adoption clears the request to resolve everything, although
  the recorded symbols may belong to another base
  (`GraphRuns.AdoptedSymbolsMislead`); the record stays right exactly when the
  rebind finds the definitions of the base the graph was adopted into
  (`GraphRuns.TrustIsNeeded`), as it does when the base has not moved on.
- The collection that ends a base publication keeps base builds only, so it also
  deletes the records of every graph generation
  (`GraphCollection.BasePublicationEmptiesGraph`); a later rebind or repoint then
  shows an empty graph (`GraphCollection.ReboundGraphIsLost`). Results about
  generations therefore say "exactly when the copied records were intact".
- An unleased publication is not protected between its two reads
  (`UnfencedPublish.UnfencedPublicationOverwrites`); `UnfencedPublish.PublishesPendingIff`
  and `UnfencedPublish.RetiresRightlyIff` say when it is right nevertheless. A
  superseded holder that aborts a build it did publish can empty a retired build
  (`SerialisedRuns.LateAbortEmptiesRetired`).
- A reference that ends in a dot is settled within its file under its whole text
  and renamed by the later cross-file pass (`LocalResolution.StagesAgreeIff`).
- A bulk reply with fewer items than actions loses the rest without an error
  (`Bulk.AckedIffNothingSkipped`, `Bulk.ShortReplyLosesAction`).
- A new file whose hash fails is hashed a second time (`Diff.DiffScan`,
  `Diff.FailingFileIsHashedTwice`).
- Not every chunk fits its budget or shows a fragment that cannot be cut: a table
  without data rows and the caption of a row without cells are never split.
  `Tables.TableChunksFitIff` is the exact condition on a table,
  `Tables.HeaderOnlyTableOverflows` and `Tables.CaptionOnlyRowOverflows` are tables
  that fail it. A heading is never split either (`Chunking.PayloadFits` says when
  it fits).
- An empty cell that does not fit under its own header is in no chunk, so a row of
  such cells disappears, and so can a table (`Tables.RowWithoutChunkIff`,
  `Tables.TableVanishesIff`, `Tables.BlankTableVanishes`).

## Model

| member | source | states |
|---|---|---|
| `GraphStage.BuildIsFromScratch` | crates/docmonk-code/src/graph_stage.rs:527-776 | Whatever is planned (skip, rebind, incremental, retry, full), every stored relationship row afterwards is the row a derivation of the current base from scratch has, and the two graphs are equal if and only if no unchanged file of the manifest had lost rows |
| `GraphStage.UntouchedRowStillRight` | crates/docmonk-code/src/graph_stage.rs:650-690 | A row whose file is neither changed nor a symbol dependent of a changed key already carries its from-scratch resolution, so scoped re-resolution misses nothing |
| `GraphStage.ManifestRight` | crates/docmonk-storage/src/graph.rs:501-550 | The manifest a build writes, as a whole or as a delta of the changed files, records exactly the candidate fingerprints of the new base and finds every stored reference by its symbol keys |
| `GraphStage.BuildKeepsInvariant` | crates/docmonk-code/src/graph_stage.rs:430-524 | Exactness of rows, manifest and input digest survives every planned action, except exactly a rebind that clears the request to resolve everything although the recorded symbols are not those of the manifest |
| `GraphStage.UnaffectedKey` | crates/docmonk-storage/src/graph.rs:164-180 | A symbol key that is not among the changed keys has the same candidates, in the same order, in every file of the old and the new snapshot |
| `GraphStage.ScopeIsExact` | crates/docmonk-code/src/graph_stage.rs:650-690 | An incremental build resolves again the changed files and exactly those that were recorded to look up a symbol whose candidates are no longer the same in some file |
| `GraphStage.PlannedWhen` | crates/docmonk-code/src/graph_stage.rs:325-405 | Field by field, when which work is planned: none exactly for a ready graph that is bound to the published base and was derived from these inputs; the binding alone exactly for reusable rows of the same inputs; otherwise a derivation, a full one exactly when the rows are not of this build, derivation and manifest format |
| `GraphStage.PlannedFiles` | crates/docmonk-code/src/graph_stage.rs:325-405 | With reusable rows exactly the files whose recorded key differs are derived and the vanished ones removed, otherwise all files are derived |
| `GraphStage.BuiltGraphIsCurrent` | crates/docmonk-code/src/graph_stage.rs:430-524 | Whatever was planned, afterwards the graph is ready, bound to the published base and derived from its inputs, so the next plan for that base is to skip |
| `GraphInputs.SameFingerprintsSameTarget` | crates/docmonk-code/src/resolve.rs:76-103 | If the qualified and the bare-name key of a reference kept their candidate fingerprints in every other file, the reference resolves alike in both snapshots: same target, confidence and resolver |
| `GraphRuns.EveryBuildIsFromScratch` | crates/docmonk-code/src/graph_stage.rs:20-30 | In every run of base updates, rebuilds with or without carry-forward, adoptions, failures and builds: each full build leaves exactly the from-scratch graph; each other one leaves rows of it only, unless a rebind misled it, and all of them if and only if no lost file with rows (dropped by a carry-forward or an adoption and not derived since) is back with the key the manifest lists. A rebind misleads when it is the first build of an adopted graph and finds other definitions than the base adopted into; a full build, an adoption or a base the graph is not carried into ends that |
| `GraphRuns.TrustIsNeeded` | crates/docmonk-code/src/graph_stage.rs:455-478 | What is recorded (rows, manifest, digest) stays right exactly as long as no rebind misleads; this is about the record, the rows a later build leaves wrong are the example below |
| `GraphRuns.NothingLostIff` | crates/docmonk-storage/src/graph.rs:1013-1044 | The files an unchanged manifest key leaves without rows are exactly the lost ones that returned, as the history of carry-forwards, adoptions and builds tells |
| `GraphRuns.LosslessRunEqualsFullBuild` | crates/docmonk-code/src/graph_stage.rs:20-30 | When none of the files lost in the history is in the base at a build that is not misled, the build leaves exactly the graph of a full build of the current snapshot |
| `GraphRuns.ReturningFilesStayDropped` | crates/docmonk-storage/src/graph.rs:1013-1044 | Files that vanish from a rebuilt base and return unchanged have lost their rows, the manifest still lists them, the next plan is a rebind and the graph stays empty |
| `GraphRuns.ReturningFileLosesRows` | crates/docmonk-storage/src/graph.rs:1013-1044 | A concrete run of legal events from a fresh store at whose end a graph reported as rebuilt lacks a row |
| `GraphRuns.AdoptedSymbolsMislead` | crates/docmonk-code/src/graph_stage.rs:455-478 | A concrete run from a fresh store in which the symbols recorded by an adoption belong to another base, a rebind trusts them, and a later incremental build keeps a reference to a vanished entity |
| `GraphRuns.RebuildMeans` | crates/docmonk-storage/src/graph.rs:1013-1046 | After a rebuild the graph has a row exactly if it was carried forward, had it before and the new base has its file; manifest, symbols and digest stay |
| `GraphRuns.AdoptMeans` | crates/docmonk-storage/src/graph.rs:1056-1101 | After an adoption the graph has a row exactly if the adopted one has it and the base has its file; it is bound to no publication and everything is to be resolved again |
| `GraphStore.ProjectStore.PlanGraph` | crates/docmonk-code/src/graph_stage.rs:325-405 | The loops over files compute exactly the action, the full flag and the added, modified and removed files of the plan the proofs are about |
| `GraphStore.ProjectStore.Derive` | crates/docmonk-code/src/graph_stage.rs:818-873 | Derivation succeeds exactly when every changed code file still has its published content, and then yields exactly the underived rows of the changed files |
| `GraphStore.ProjectStore.AllEntities` | crates/docmonk-storage/src/knowledge.rs:1205-1212 | All entities of the base, once each, in storage order |
| `GraphStore.ProjectStore.Resolve` | crates/docmonk-code/src/graph_stage.rs:652-690 | Whole-build or per-file resolution rewrites exactly the references of the target files to their naive resolution and leaves every other row alone |
| `GraphStore.ProjectStore.PublishScoped` | crates/docmonk-code/src/graph_stage.rs:650-730 | The in-place scoped publication: targets are the changed files and the recorded dependents of the keys whose candidates changed; only the changed files enter the manifest, the removed ones leave it |
| `GraphStore.ProjectStore.DeriveFenced` | crates/docmonk-code/src/graph_stage.rs:588-634 | Succeeds exactly when no other base was published meanwhile and the inputs are unchanged; the lifecycle is `stale` otherwise |
| `GraphStore.ProjectStore.BuildPlanned` | crates/docmonk-code/src/graph_stage.rs:430-524 | On success the store is the one of the specification; on any error rows, manifest and symbols are untouched |
| `GraphStore.ProjectStore.RebindPlanned` | crates/docmonk-code/src/graph_stage.rs:453-478 | Only when the base is still the planned one: the graph becomes ready, is bound to the published base and no longer asks for full resolution; no other field, row or symbol changes |
| `GraphStore.ProjectStore.BuildGraph` | crates/docmonk-code/src/graph_stage.rs:409-524 | Planning and building in place: success exactly in the fenced cases, with the store of the specification, ready, bound to the published base, derived from its inputs and with nothing left to plan; failure leaves the committed graph alone |
| `Resolution.TruncatedLookupsResolveNaively` | crates/docmonk-code/src/resolve.rs:76-103 | Presorting, leaving the referencing file out and keeping only the first two qualified and the first bare-name candidate never changes target, symbol, confidence or resolver |
| `Resolution.NaiveTargetUnique` | crates/docmonk-code/src/resolve.rs:76-103 | The naive cross-file specification has at most one outcome |
| `Resolution.NaiveTargetExists` | crates/docmonk-code/src/resolve.rs:76-103 | It always has one |
| `Resolution.PresortedTables` | crates/docmonk-code/src/process.rs:456-480 | Every name finds all its candidates, once each, in resolution order, although groups are sorted by a coarser key than the order they must end up in |
| `Resolution.ResolveBuild` | crates/docmonk-code/src/process.rs:456-526 | Whole-build resolution rewrites exactly the references a from-scratch resolution changes |
| `Resolution.ExtendCaches` | crates/docmonk-code/src/process.rs:534-580 | The caches stay complete for every name they hold and hold every name the batch looks up |
| `Resolution.ResolveFiles` | crates/docmonk-code/src/process.rs:534-616 | Per-file resolution in batches with cached lookups gives, for the references of the given files, the outcomes of the naive specification |
| `Resolution.EntitiesByBareNames` | crates/docmonk-storage/src/graph.rs:869-923 | Every requested name gets all its definitions, in the order the resolver expects |
| `Resolution.AppliedOutcomes` | crates/docmonk-storage/src/knowledge.rs:1309-1338 | Applied outcomes leave each examined row resolved from scratch and every other row as it was |
| `Resolution.BareIsLastPart` | crates/docmonk-code/src/resolve.rs:28-31 | The bare name has no dot and is the whole reference or what follows its last dot |
| `Resolution.QualifiedReference` | crates/docmonk-code/src/resolve.rs:76-92 | What either procedure leaves of a reference by the qualified name of an entity elsewhere: the first such entity by file, line and id, with high confidence, ambiguous unless it is the only one |
| `Resolution.NameReference` | crates/docmonk-code/src/resolve.rs:93-97 | A reference, dotted or not, whose full name nothing elsewhere has ends at the first entity elsewhere that is named like its last part, with medium confidence and by name only |
| `Resolution.UnmatchedReference` | crates/docmonk-code/src/resolve.rs:98-103 | A reference that nothing elsewhere matches stays unresolved under its last part |
| `Resolution.SettledRowStays` | crates/docmonk-code/src/process.rs:456-480 | A row that its own file settled, or that names no reference, stays as it is |
| `Resolution.OrdersMean` | crates/docmonk-code/src/resolve.rs:82-94 | Candidates of a full name come by file, line and id, those of a bare name by qualified name first |
| `Resolution.StrLeIff` | crates/docmonk-code/src/resolve.rs:82-94 | The order of strings: a prefix first, otherwise by the first character that differs |
| `LocalResolution.SameFileMatch` | crates/docmonk-code/src/resolve.rs:34-73 | A match in the own file is an entity of that file: the only one with the qualified name if there is one, otherwise the one of that bare name whose qualified name comes first, exact unless several have the name |
| `LocalResolution.NamelessReference` | crates/docmonk-code/src/resolve.rs:36-44 | A reference that is empty or ends in a dot is settled at once as unresolved under its whole text, and no other one is |
| `LocalResolution.LeftToOtherFilesIff` | crates/docmonk-code/src/resolve.rs:34-73 | The same-file stage leaves a reference to other files exactly when it has a name, no single entity of the file has the qualified one and none the bare one |
| `LocalResolution.StagesAgreeIff` | crates/docmonk-code/src/process.rs:308-315 | Resolving within the file first and across files later equals one full resolution if and only if the reference does not end in a dot (or is empty with nothing unnamed) |
| `Interleaving.RunHasValidLog` | crates/docmonk-backends/src/backend.rs:539-594 | In every interleaving of workers and heartbeats each committed write was decided on exactly the version it replaced, under a lease granted to its own worker |
| `Interleaving.StepKeepsInvariant` | crates/docmonk-backends/src/backend.rs:564-594 | Every single step (tick, read, decide, read again, write, lost reply) keeps that |
| `Interleaving.WriteMeans` | crates/docmonk-backends/src/backend.rs:539-562 | A write is committed exactly if nothing else was since the version it read, and its worker holds the lease it asked for only if the reply arrived |
| `Interleaving.TimePasses` | crates/docmonk-backends/src/backend.rs:539-594 | Time may pass between any two steps and changes nothing else |
| `StateDocument.LeaseAllows` | crates/docmonk-backends/src/backend.rs:132-161 | A fenced write is allowed exactly to the owner and token of the document while its time runs, an unfenced one exactly when nobody owns the lease or its time is over |
| `StateDocument.KeptUntilGraceEnds` | crates/docmonk-backends/src/backend.rs:861-869 | Of the retired builds and the one replaced now exactly those stay retired that were replaced less than the grace ago |
| `StateDocument.FirstReadAllows` | crates/docmonk-backends/src/backend.rs:842-935 | What the first read of begin, publish and abort accepts and decides to write |
| `StateDocument.BuildWrites` | crates/docmonk-backends/src/backend.rs:768-978 | Field by field, what the writes on builds do; lease and graph record stay |
| `StateDocument.LeaseWrites` | crates/docmonk-backends/src/backend.rs:637-661 | Field by field, what renewing and releasing do; builds and graph record stay |
| `StateDocument.GraphWrites` | crates/docmonk-backends/src/graph.rs:554-578 | Field by field, what setting the graph state, marking a generation pending and recording a failure do; builds and lease stay |
| `StateDocument.PromotionIff` | crates/docmonk-backends/src/graph.rs:1002-1081 | A promotion is accepted exactly for the pending generation on the active base, and makes it current, complete and visible to readers of that base |
| `StateDocument.RepointIff` | crates/docmonk-backends/src/graph.rs:580-618 | Repointing and rebinding are accepted exactly for the active base and change the document exactly when the generation is the settled current one (and, for a rebind, was derived from the inputs named) |
| `StateDocument.ServedIff` | crates/docmonk-backends/src/graph.rs:141-177 | A strict reader is served exactly the ready generation of its own base; any other reader also an older one, marked stale, unless the graph is disabled or was never built |
| `Fencing.TokensNeverDecrease` | crates/docmonk-backends/src/backend.rs:602-635 | The fencing token never decreases over any commit log |
| `Fencing.FencedWriteHoldsLease` | crates/docmonk-backends/src/backend.rs:132-161 | A committed fenced write lands on a version whose owner and token are the writer's, live when the write was decided |
| `Fencing.NoSmallerTokenAfter` | crates/docmonk-backends/src/backend.rs:132-161 | After a write fenced by token t no write fenced by a smaller token commits, and none by t itself once another grant was committed |
| `Fencing.OneWorkerPerToken` | crates/docmonk-backends/src/backend.rs:602-635 | Two writes fenced by one lease come from one worker |
| `Fencing.LostStays` | crates/docmonk-backends/src/backend.rs:602-657 | A lease that no longer covers a write never covers one again: neither a renewal nor a new grant revives it |
| `Fencing.FencedRunsAreExclusive` | crates/docmonk-backends/src/backend.rs:564-594 | Between two commits fenced by one token nothing else commits, no grant and no unfenced write |
| `Fencing.FencedReadsAgree` | crates/docmonk-backends/src/backend.rs:851-902 | Under a lease the second read of begin, publish and abort finds the very document the first one found, up to the lease expiry moved by the own heartbeat |
| `Fencing.FencedPublicationIsSound` | crates/docmonk-backends/src/backend.rs:842-902 | A fenced publication makes active exactly the build that was pending in the version it replaced, and a build it replaces (retired or active) stays retired if and only if it was replaced less than the grace configured for this publication before its own first read |
| `Fencing.FencedAbortIsSound` | crates/docmonk-backends/src/backend.rs:918-962 | A fenced abort clears the build it was asked to abort, never the active one, and keeps active and retired builds |
| `Fencing.EveryFencedPublicationIsSound` | crates/docmonk-backends/src/backend.rs:842-902 | The publication result, with its own time and grace, for every commit of every run |
| `Fencing.EveryRunIsFenced` | crates/docmonk-backends/src/backend.rs:539-657 | In every run tokens of fenced commits ascend, and what lies between two commits of one token is that worker's own |
| `UnfencedPublish.UnfencedPublicationOverwrites` | crates/docmonk-backends/src/backend.rs:851-902 | Without a lease the two reads are not protected: a run in which a publication replaces a version whose pending build is another one |
| `UnfencedPublish.PublishesPendingIff` | crates/docmonk-backends/src/backend.rs:851-902 | In every log a publication, leased or not, replaces a version whose pending build it publishes if and only if no begin, publish or abort was committed between its two reads, or the last of them began that very build |
| `UnfencedPublish.RetiresRightlyIff` | crates/docmonk-backends/src/backend.rs:842-902 | Its retired list is the grace decision about the builds it replaces if and only if no build was published between its two reads (or no grace is granted); build ids are new when begun |
| `GraphFencing.EveryVisibleGenerationIsFenced` | crates/docmonk-backends/src/graph.rs:141-177 | In every reachable document the visible generation was promoted, repointed or rebound by a write that found the readers' base to be the active build |
| `GraphFencing.PendingNeverServed` | crates/docmonk-backends/src/graph.rs:162-177 | A pending generation is served neither to strict nor to other readers |
| `GraphFencing.NewBaseMakesGraphStale` | crates/docmonk-backends/src/backend.rs:870-886 | Publishing a build for the first time keeps the graph record, leaves no generation visible and makes the old one at most stale |
| `GraphFencing.ActiveWasPublished` | crates/docmonk-backends/src/backend.rs:842-902 | The active build of every version was made so by an earlier publication |
| `Records.AttachExtendsView` | crates/docmonk-backends/src/backend.rs:116-122 | Copy-forward gives the new build exactly the old build's records of the copied files, with their content |
| `Records.AttachInBatches` | crates/docmonk-backends/src/publish.rs:232-274 | Copying in batches is copying at once |
| `Records.CollectedView` | crates/docmonk-backends/src/backend.rs:1071-1080 | Collection keeps a record of a build exactly when a kept build shares it or it is a manual link |
| `Records.AttachedRecord` | crates/docmonk-backends/src/backend.rs:116-122 | Copy-forward neither adds nor deletes records: a copied one gains the new build and loses those that are not kept, every other one stays as it is |
| `Records.DetachedRecord` | crates/docmonk-backends/src/backend.rs:1044-1069 | Detaching a build takes it from each of its records and deletes exactly the records of no other build |
| `Records.CollectedRecord` | crates/docmonk-backends/src/backend.rs:1071-1080 | Collection deletes exactly the records that no kept build has and that are no manual links |
| `Records.PutRecord` | crates/docmonk-backends/src/backend.rs:1476-1496 | Writing stores each record under its own id, for its build alone, and leaves the others as they are |
| `SerialisedRuns.RetiredBuildKeepsView` | crates/docmonk-backends/src/backend.rs:842-909 | In every lease-serialised run a build replaced at T keeps exactly its record view under all later begins, copies, writes, aborts and publications until a publication at T plus grace or later |
| `SerialisedRuns.ActiveBuildKeepsView` | crates/docmonk-backends/src/backend.rs:768-789 | The active build's view never changes while it is active, even across publications reported as failed and the aborts that follow |
| `SerialisedRuns.PinnedReaderKeepsView` | crates/docmonk-backends/src/backend.rs:163-176 | A reader pinned to the active build sees the same records for at least the grace period, across any number of publications |
| `SerialisedRuns.ExpiredBuildIsCollected` | crates/docmonk-backends/src/backend.rs:842-909 | The converse, over every lease-serialised run: after a publication applied at T plus grace or later the build replaced at T is no longer retired, and after a completed one it shows only records that a kept build shares or that are manual links |
| `SerialisedRuns.AbortAfterLostReply` | crates/docmonk-backends/src/publish.rs:323-333 | A publication that was applied but reported as failed is not undone: the writer's abort changes neither document nor records |
| `SerialisedRuns.AbortDropsPinnedIffRetired` | crates/docmonk-backends/src/backend.rs:918-962 | Outside serialised runs: an abort takes records from a build readers are pinned to if and only if the build it names is itself a retired one that shows something and is neither active nor pending for another holder |
| `SerialisedRuns.LateAbortEmptiesRetired` | crates/docmonk-backends/src/backend.rs:918-962 | Such a history, for any start and any writes: a publication is applied but its reply lost, another holder publishes, and the first one's abort inside the grace period empties the build that readers are still pinned to |
| `SerialisedRuns.RunKeepsInvariant` | crates/docmonk-backends/src/backend.rs:768-962 | Pending and active build differ, record owners were begun, and the pending build's own records belong to no other build, in every reachable state |
| `CopyForward.IncrementalHoldsIff` | crates/docmonk-backends/src/publish.rs:340-369 | Copying some files and writing the others publishes exactly the staged knowledge, each record once, if and only if the copied files already showed it in the old build |
| `CopyForward.CollectionKeepsHolding` | crates/docmonk-backends/src/backend.rs:1071-1080 | The collection that ends a publication leaves the new build complete, so the next incremental publication may start from it |
| `Publication.DigestsAreStaged` | crates/docmonk-backends/src/publish.rs:160-201 | The digests read back from a build that publishes the staged knowledge are that knowledge |
| `Publication.IncrementalPublishesStaged` | crates/docmonk-backends/src/publish.rs:295-369 | Copying the files whose server digest is the staged one and writing the rest publishes exactly the staged knowledge |
| `Publication.IncrementalRefinesFullRewrite` | crates/docmonk-backends/src/publish.rs:340-369 | Record for record, key and payload, the incremental path shows what writing every staged file shows |
| `Publication.PublishedRecords` | crates/docmonk-backends/src/publish.rs:376-522 | What publishing the staged knowledge means record by record: the row and digest of every staged file, its parts, and nothing else |
| `Backend.ServerBackend.constructor` | crates/docmonk-backends/src/backend.rs:663-695 | A registered source has no build, no lease and no record |
| `Backend.ServerBackend.WriteState` | crates/docmonk-backends/src/backend.rs:539-562 | Compare-and-swap: the document is replaced exactly when it is still the version that was read |
| `Backend.ServerBackend.PatchState` | crates/docmonk-backends/src/backend.rs:564-594 | A read-modify-write never overwrites what another process committed in between, and otherwise is the lease check and the operation |
| `Backend.ServerBackend.AcquireLease` | crates/docmonk-backends/src/backend.rs:602-635 | Granted exactly when nobody, the same owner or an expired lease holds it, with the next token; the granted lease passes the check |
| `Backend.ServerBackend.RenewLease` | crates/docmonk-backends/src/backend.rs:637-646 | Extends the lease exactly when it is still live and not superseded |
| `Backend.ServerBackend.ReleaseLease` | crates/docmonk-backends/src/backend.rs:648-661 | Gives up the own live lease and leaves a superseded one alone |
| `Backend.ServerBackend.BeginBuildWith` | crates/docmonk-backends/src/backend.rs:768-789 | Deletes only the leftovers of another pending build and records the new one |
| `Backend.ServerBackend.PublishBuildExt` | crates/docmonk-backends/src/backend.rs:842-907 | What a publication under any fault does to document, records and digest, and what its caller is told: when it is applied, exactly the builds replaced less than the grace ago stay retired |
| `Backend.ServerBackend.AbortBuildWith` | crates/docmonk-backends/src/backend.rs:918-962 | Refused for the active build and for another holder's pending build; otherwise the build's records are gone |
| `Backend.ServerBackend.BuildFileDigests` | crates/docmonk-backends/src/publish.rs:160-201 | Exactly the digests stored in the build's file records |
| `Backend.ServerBackend.CopyForwardIn` | crates/docmonk-backends/src/publish.rs:232-274 | The batched copy is one copy of the files of the batches that succeeded |
| `Backend.ServerBackend.Partition` | crates/docmonk-backends/src/publish.rs:340-369 | Each staged file is copied exactly when the server has its digest and written otherwise |
| `Backend.ServerBackend.WriteBuild` | crates/docmonk-backends/src/publish.rs:340-522 | When it succeeds the pending build shows exactly the staged knowledge, and copied plus written files are all files |
| `Backend.ServerBackend.PublishStaged` | crates/docmonk-backends/src/publish.rs:323-333 | However far a publication gets, what the active build shows stays described by what was staged for it |
| `Backend.ServerBackend.PublishFromStore` | crates/docmonk-backends/src/publish.rs:277-338 | Under any fault the active build afterwards shows exactly the staged knowledge or, only on failure, is still the previous build; a report of nothing to do is given only when no full rewrite was asked for and the server already had exactly this content |
| `Backend.ServerBackend.PinnedReaderIsSafe` | crates/docmonk-backends/src/backend.rs:163-176 | After any sequence of these operations a reader pinned to the build active at some step sees the same records within the grace period |
| `GraphStaging.EachFile` | crates/docmonk-backends/src/graph.rs:377-421 | Every file with edges of the build or with links is visited once, with all of its records; edges of unlisted files are dropped |
| `GraphStaging.StageWithin` | crates/docmonk-backends/src/graph.rs:435-476 | The staged files are the whole graph; records are retained exactly when those to write fit the budget, and then they are exactly the ones to write |
| `GraphStaging.IdenticalRecords` | crates/docmonk-backends/src/graph.rs:480-491 | Comparing sizes and looking up each staged digest decides equality of the recorded and the staged graph |
| `GraphPublication.WriteRetained` | crates/docmonk-backends/src/graph.rs:856-941 | Writes the retained files of the list in order; a listed file that is not retained is skipped |
| `GraphPublication.WriteStreamed` | crates/docmonk-backends/src/graph.rs:856-941 | A second pass writes exactly the wanted files it meets and refuses one whose digest changed |
| `GraphPublication.WriteGraph` | crates/docmonk-backends/src/graph.rs:856-941 | The new generation shows the staged graph file by file if and only if the files copied from the current generation were intact there, whether the rest was retained or streamed again |
| `GraphPublication.ShownRelationships` | crates/docmonk-backends/src/graph.rs:856-941 | What showing a staged graph means: exactly the relationships of its edges and links, file by file, a link taking precedence |
| `GraphPublication.PromoteGraph` | crates/docmonk-backends/src/graph.rs:1002-1081 | Promotion happens only for the pending generation on the active base and makes it visible; of the retired generations and the one replaced now it names as expired exactly those replaced at least the grace ago, and keeps the others retired |
| `GraphPublication.RepointGraph` | crates/docmonk-backends/src/graph.rs:949-998 | The current generation is pointed at the new base only when it is settled; the document is otherwise unchanged |
| `GraphPublication.RebindGraph` | crates/docmonk-backends/src/graph.rs:580-618 | Rebinding succeeds exactly when lease, base, generation, input digest and lifecycle agree |
| `GraphPublication.PublishGeneration` | crates/docmonk-backends/src/graph.rs:760-848 | On success the new generation is visible and shows the staged graph exactly when the copied records were intact, generations whose grace is over show no record any more and exactly the others are still retired; on failure the current one stays |
| `GraphPublication.PublishGraph` | crates/docmonk-backends/src/graph.rs:735-848 | The reported generation is the visible one: a new one, which shows the staged graph exactly when the copied records were intact, or the current one, whose recorded digests are the staged ones and whose records are untouched; an error leaves the current one in place |
| `GraphCollection.SurvivesCollectionIff` | crates/docmonk-backends/src/backend.rs:1071-1080 | A generation keeps its view through a collection if and only if each of its records is shared with a kept build or is a manual link |
| `GraphCollection.BasePublicationEmptiesGraph` | crates/docmonk-backends/src/backend.rs:904-906 | In every reachable state a completed base publication leaves no (non-manual) record of any graph generation |
| `GraphCollection.ReboundGraphShowsNothing` | crates/docmonk-backends/src/graph.rs:580-618 | Hence rebinding the old generation to the base just published makes a generation visible that shows nothing |
| `GraphCollection.ReboundGraphIsLost` | crates/docmonk-backends/src/graph.rs:580-618 | That generation no longer shows the graph staged for it as soon as one file of the graph has a relationship |
| `GraphCollection.SparedGenerationKeepsView` | crates/docmonk-backends/src/graph.rs:735-848 | Over whole runs: until a base publication completes, a generation keeps its view while base builds and later generations are begun, copied, written and dropped |
| `Bulk.FromConfig` | crates/docmonk-backends/src/bulk.rs:29-36 | Configured limits are used as they are when positive and are at least one otherwise; a negative number of retries counts as none |
| `Bulk.FatesPartition` | crates/docmonk-backends/src/bulk.rs:176-203 | Every action with a verdict is acknowledged, retried or lost, exactly one of them |
| `Bulk.FateMeans` | crates/docmonk-backends/src/bulk.rs:176-203 | Success, or deleting what is not there, is acknowledged; status 429 and 503 are retried while retries are left; every other action is lost |
| `Bulk.SettleBalances` | crates/docmonk-backends/src/bulk.rs:176-221 | Working in the verdicts of a request keeps the ledger balanced: no action appears or disappears |
| `Bulk.AckedIffNothingSkipped` | crates/docmonk-backends/src/bulk.rs:176-203 | With nothing failed or given up, every action was acknowledged exactly once if and only if the server gave a verdict on each |
| `Bulk.ShortReplyLosesAction` | crates/docmonk-backends/src/bulk.rs:176-203 | A write of one action that succeeds, reports no failure and was not acknowledged: the server answered without verdicts |
| `Bulk.BulkWriter.Exchange` | crates/docmonk-backends/src/bulk.rs:137-219 | One request: the ledger is what the replies say, the target follows from them, and the measure (batch, target, retries left) goes down unless the request is refused for good |
| `Bulk.BulkWriter.Flush` | crates/docmonk-backends/src/bulk.rs:133-221 | Terminates under any replies; every request holds at most the current target and the byte limit unless it is a single action; it fails only when the last request was refused |
| `Bulk.BulkWriter.Push` | crates/docmonk-backends/src/bulk.rs:115-130 | The action is accounted for, whatever is flushed on the way, and the batch stays below its target |
| `Bulk.BulkWriter.Finish` | crates/docmonk-backends/src/bulk.rs:229-239 | Success means every pushed action was acknowledged exactly once, exactly when the server gave a verdict on each; item failures are reported with their number |
| `Text.WordsOfStrip` | crates/docmonk-documents/src/tokenization.rs:11-14 | Stripping loses no word |
| `Tokens.CountAcross` | crates/docmonk-documents/src/tokenizer.rs:156-161 | Counting is additive over texts joined with whitespace |
| `Tokens.PiecesTile` | crates/docmonk-documents/src/tokenizer.rs:171-202 | Slicing at token offsets puts every token into exactly one range, each within the budget or a single token, none of which could have been longer |
| `Tokens.PiecesShowText` | crates/docmonk-documents/src/tokenizer.rs:171-202 | Being the text itself if it fits, and otherwise the non-empty texts of ranges that tile its tokens and could not be longer, determines the pieces |
| `Tokens.TokenInOneRange` | crates/docmonk-documents/src/tokenizer.rs:171-202 | Ranges that tile hold each token once |
| `Tokens.PiecesFit` | crates/docmonk-documents/src/tokenizer.rs:171-202 | Unless a single token is over the budget, every piece fits |
| `Tokens.VisibleTextHasPiece` | crates/docmonk-documents/src/tokenizer.rs:171-202 | A text with a token that is not zero characters wide has a piece |
| `Tokens.Split` | crates/docmonk-documents/src/tokenizer.rs:171-202 | The nested index loops compute exactly those slices |
| `Splitting.SplitSentences` | crates/docmonk-documents/src/tokenization.rs:29-58 | The parts keep the text's words in order; they end exactly where a full stop, exclamation or question mark is followed by whitespace |
| `Splitting.SplitWords` | crates/docmonk-documents/src/tokenization.rs:75-99 | The words stay in order, each whole unless over the budget by itself; pieces fit when no single token is oversized |
| `Splitting.Repack` | crates/docmonk-documents/src/tokenization.rs:104-122 | Pieces are joined greedily into groups that hold them in order and could not have taken in the next piece |
| `Splitting.SplitByTokenBudget` | crates/docmonk-documents/src/tokenization.rs:62-102 | Word sequence kept, every piece within the budget, no two neighbours joinable |
| `Packing.PackPieces` | crates/docmonk-documents/src/chunker.rs:179-221 | Groups are contiguous windows whose starts and ends strictly advance, each full, overlapping by the longest suffix within the configured overlap |
| `Packing.OverlapIsProper` | crates/docmonk-documents/src/chunker.rs:187-200 | A full window is never repeated whole by the next one, so windows advance |
| `Packing.NewPartsAreThePieces` | crates/docmonk-documents/src/chunker.rs:179-221 | Without what they repeat, the windows are the pieces: nothing lost, duplicated or reordered |
| `Packing.SplitEvenly` | crates/docmonk-documents/src/chunker.rs:227-242 | The first half is the longest one, of at least one piece, within half of the tokens |
| `Packing.MergePeers` | crates/docmonk-documents/src/chunker.rs:244-267 | Neighbours of which one is below the minimum are split evenly, pair after pair, unless a half is empty or too large |
| `Packing.MergedKeeps` | crates/docmonk-documents/src/chunker.rs:244-267 | Rebalancing keeps the flattened sequence, the number of groups and the bound |
| `Packing.WindowsFit` | crates/docmonk-documents/src/chunker.rs:179-221 | If every piece fits, so does every window |
| `Chunking.FittedHeaderFits` | crates/docmonk-documents/src/chunker.rs:104-138 | The fitted header is within its budget as soon as the budget has room for a label and a token |
| `Chunking.HeaderKeepsMost` | crates/docmonk-documents/src/chunker.rs:104-138 | The fitted header keeps the title and the longest end of the path that fits, and is reported as reduced exactly when that is not all of it |
| `Chunking.HeaderOfDeepest` | crates/docmonk-documents/src/chunker.rs:104-138 | If no end of the path fits with the title, the header is the deepest segment alone, cut unless it fits without the title |
| `Chunking.HeaderOfTitle` | crates/docmonk-documents/src/chunker.rs:104-138 | Without a path a title that does not fit is cut |
| `Chunking.HeaderLines` | crates/docmonk-documents/src/chunker.rs:57-66 | A header is a line for the title and a line for the path, each only if there is one |
| `Chunking.TruncatedMeans` | crates/docmonk-documents/src/chunker.rs:91-102 | A truncated text is the text itself if it fits, otherwise the first of the pieces that show it |
| `Chunking.HeaderLeavesBody` | crates/docmonk-documents/src/chunker.rs:148-162 | A fitted header always leaves the minimum body |
| `Chunking.PayloadFits` | crates/docmonk-documents/src/chunker.rs:3-9 | Special tokens, header and body are within the payload budget if and only if the body is within the body budget |
| `Chunking.BudgetsAdd` | crates/docmonk-documents/src/chunker.rs:148-158 | The payload is the maximum without the safety margin, the special tokens aside it is shared by header and body, the body is promised the configured minimum as far as there is room, the header gets the rest |
| `Chunking.BodyBudgetMeans` | crates/docmonk-documents/src/chunker.rs:164-177 | A chunk may repeat the configured overlap, but always less than it holds |
| `Chunking.FlushRun` | crates/docmonk-documents/src/chunker.rs:388-447 | A run has one chunk for each rebalanced window of its pieces, none empty; the pieces are those of each paragraph in turn, on its pages. A chunk holds the words of its pieces in order, joined by empty lines, under the header in its embedding input, with its exact token count and its first and last page; every payload is within the budget whenever the header leaves a token and no single token is oversized |
| `Chunking.ChunksHoldTheRun` | crates/docmonk-documents/src/chunker.rs:388-447 | The words of the chunks are those of the run: each window repeats at most the overlap and then adds pieces, the added pieces hold exactly the words of the paragraphs, and without overlap so do the chunks |
| `Tables.BothRenderingsCountTheSame` | crates/docmonk-documents/src/table.rs:17-33 | The text a group of rows is measured with and the text its chunk carries have equally many tokens |
| `Tables.RowsRendered` | crates/docmonk-documents/src/table.rs:9-15 | Cells are rendered side by side, rows below each other |
| `Tables.TableRendered` | crates/docmonk-documents/src/table.rs:17-24 | A table is rendered as its caption, an empty line and its rows, what is empty being left out |
| `Tables.SplitDataRows` | crates/docmonk-documents/src/table.rs:37-65 | Data rows are grouped in order, each group fits under the repeated header or is a single row, and none could have taken in the next row |
| `Tables.SegmentOversizedRow` | crates/docmonk-documents/src/table.rs:74-122 | An oversized row is cut into segments in column order, each under the sliced header: a column that fits alone has its cell in exactly one segment, which could not have held one more column; the cell of any other column is shown by fragments whose ranges tile its tokens |
| `Tables.ColumnWithoutSegmentIff` | crates/docmonk-documents/src/table.rs:74-122 | A column is in no segment if and only if it does not fit alone and has no text: its cell is empty, or every range of its tokens is zero characters wide |
| `Tables.ColumnInOneRange` | crates/docmonk-documents/src/table.rs:74-122 | Each column is in exactly one range, held by a whole segment or cut alone |
| `Tables.OversizedGroupIsSingle` | crates/docmonk-documents/src/chunker.rs:328-340 | A group found too long for its chunk is a single row, so taking its first row takes all of it |
| `Tables.TableChunks` | crates/docmonk-documents/src/chunker.rs:312-368 | The table itself if it fits or has no data rows; otherwise the data rows in order, each in one chunk together with others that fit under the repeated header, or alone and cut as stated above under its own row number |
| `Tables.PartChunksShow` | crates/docmonk-documents/src/chunker.rs:312-368 | Rows that fit together are one chunk under all header rows and the caption of the table; a cut row has one chunk for every segment, its cells under their columns of the header, captioned with the row; each chunk carries the tokens of what it renders |
| `Tables.RowCaptionMeans` | crates/docmonk-documents/src/chunker.rs:341-346 | A cut row is captioned with its number, below the caption of the table if it has one |
| `Tables.DigitsDenote` | crates/docmonk-documents/src/chunker.rs:341-346 | The decimal digits of a row number denote it, without leading zeros |
| `Tables.HeaderAndData` | crates/docmonk-documents/src/chunker.rs:322-324 | Header and data rows together are the table, and the header has as many rows as configured or all |
| `Tables.HeaderColumns` | crates/docmonk-documents/src/table.rs:84-86 | The header of a segment has the cells of its columns, a missing cell being empty |
| `Tables.RowWithoutChunkIff` | crates/docmonk-documents/src/chunker.rs:312-368 | A cut row leaves no chunk at all if and only if it has cells, none of which fits alone or has text |
| `Tables.TableVanishesIff` | crates/docmonk-documents/src/chunker.rs:312-368 | A table leaves no chunk at all if and only if it is too long, has data rows, and each of them is too long under the header, has cells, and has none that fits alone or has text |
| `Tables.BlankTableVanishes` | crates/docmonk-documents/src/chunker.rs:312-368 | Such a table: one empty cell under a header cell that does not fit |
| `Tables.TableChunksFitIff` | crates/docmonk-documents/src/chunker.rs:3-9 | The chunks of a table fit the body budget, those aside that show a fragment of a cell that cannot be cut further, if and only if the table fits as it is or has data rows and none of them is a row without cells that is too long under the header and whose caption alone is too long |
| `Tables.HeaderOnlyTableOverflows` | crates/docmonk-documents/src/chunker.rs:312-326 | A table of one header row of two tokens, budget one token: it is not split and does not fit |
| `Tables.CaptionOnlyRowOverflows` | crates/docmonk-documents/src/table.rs:82-84 | A row without cells under a caption of two tokens, budget one token: its chunk is the caption alone and does not fit |
| `Headings.Normalize` | crates/docmonk-convert/src/normalize.rs:193-284 | The heading stack yields for each unit the last earlier heading of smaller level as parent and the path that following parents spells; no item but skipped and blank ones is dropped |
| `Headings.FindsAfterHeading` | crates/docmonk-convert/src/normalize.rs:193-284 | For every level the stack keeps finding the last open heading below it and its path |
| `Headings.LevelsIncrease` | crates/docmonk-convert/src/normalize.rs:193-284 | Along a heading path levels strictly increase |
| `Headings.ParentIsLast` | crates/docmonk-convert/src/normalize.rs:193-284 | No heading that could be the parent comes after it, and where there is one there is a parent |
| `Headings.SameRunSameParent` | crates/docmonk-documents/src/chunker.rs:388-398 | Units without a heading in between share parent and path |
| `DocumentChunks.OneMoreChunk` | crates/docmonk-documents/src/chunker.rs:450-481 | A chunk that stands for its unit keeps the chunks well nested: parents are the last earlier heading chunks of smaller level, paths what following parents spells |
| `DocumentChunks.RunSharesPath` | crates/docmonk-documents/src/chunker.rs:388-398 | All paragraphs of a flushed run share the first one's parent and path |
| `DocumentChunks.TablePayloadsFitIff` | crates/docmonk-documents/src/chunker.rs:3-9 | The same if and only if for the embedding inputs of the chunks, header and special tokens included, against the payload budget, whenever the header leaves a token |
| `DocumentChunks.ChunkDocument` | crates/docmonk-documents/src/chunker.rs:372-492 | The units become, in order and without a gap, heading chunks, the chunks of each table and those of each maximal run of paragraphs, which hold the words of its pieces as stated for a run; every parent is an earlier heading chunk, the chunks of a well-nested document are well nested themselves, and paragraph payloads keep the bound |
| `DocumentChunks.RunChunksHoldWords` | crates/docmonk-documents/src/chunker.rs:388-447 | Without overlap the chunks of a run in a document hold exactly the words of its paragraphs, in order |
| `DocumentChunks.ChunkItems` | crates/docmonk-documents/src/chunker.rs:372-492 | From the items of a document to its chunks: whatever the items are, a chunk's parent is the last heading chunk before it, for a heading the last one with a smaller level, and its path is what following parents spells |
| `DocumentChunks.DocUnitMeans` | crates/docmonk-documents/src/chunker.rs:450-481 | A normalized unit is chunked as a heading, as a table with its rows, or as a paragraph with its text and pages |
| `Diff.DiffScan` | crates/docmonk-indexing/src/diff.rs:121-273 | Each scanned file gets exactly one decision, each vanished row is the source of exactly one move, deletion or unseen row, each decision is right and counted, carries the hash its file was found to have, no move is missed, the files hashed are exactly the hash candidates, and there is one hash call for each of them and a second one for each new file whose first hash failed when renames were possible |
| `Diff.FailingFileIsHashedTwice` | crates/docmonk-indexing/src/diff.rs:132-141 | One new file, one vanished row with a hash: if hashing fails the only hashed file costs two calls |
| `Diff.CountsAddUp` | crates/docmonk-indexing/src/diff.rs:121-273 | Scanned files are new, changed or unchanged, vanished rows moved, deleted or kept; an incomplete scan deletes nothing |
| `Diff.MissingByHash` | crates/docmonk-indexing/src/diff.rs:146-155 | Exactly the vanished rows, listed by hash |
| `Diff.TakeMove` | crates/docmonk-indexing/src/diff.rs:160-193 | A file is taken as a move exactly when its hash is that of one vanished row not taken yet, of the same kind |
| `Diff.NotTaken` | crates/docmonk-indexing/src/diff.rs:160-193 | A file that is not taken had no hash, not exactly one vanished row with it, another kind, or an earlier file took that row |
| `Diff.Hasher.HashOf` | crates/docmonk-indexing/src/diff.rs:132-141 | A file is hashed again only after a failure, and the remembered hash is an answer that was given for it |
| `Diff.Compare` | crates/docmonk-indexing/src/diff.rs:230-248 | A known file is hashed exactly when it is a due retry, its stat changed or it is racy |
| `Traverse.Walk` | crates/docmonk-code/src/graph.rs:38-92 | Depths never decrease and stay within the bound; below the limit the result is every edge leaving a node at a distance below the maximal depth, each node expanded once; at the limit it is complete up to the node it stopped at |
| `Traverse.WalkedIsComplete` | crates/docmonk-code/src/graph.rs:38-92 | Walked levels hold each such edge, labelled with its node's distance plus one |
| `Traverse.ShortLookupIsComplete` | crates/docmonk-storage/src/knowledge.rs:1340-1397 | A lookup shorter than its limit returned all edges of the node |
| `Traverse.TraverseFrom` | crates/docmonk-code/src/graph.rs:38-92 | Over the store's two directions and edge types, in terms of edges and trails: every hop is an edge, of a type asked for, of a node whose shortest trail from the start is one edge shorter than its depth; a hop beyond the first level leaves the node that an edge of the level before leads to; below the limit no such edge is missing |
| `Traverse.TwoEdgesAway` | crates/docmonk-code/src/graph.rs:69-85 | An edge of the node that an edge of the start leads to is an answer at depth two, or at depth one if that node is the start |
| `Traverse.EdgesInOrder` | crates/docmonk-code/src/graph.rs:24-35 | A node's edges are listed by type, then target or symbol, then id |
| `Neutralize.OutputIsInert` | crates/docmonk-ai/src/prompt.rs:20-69 | The output contains no listed marker in any letter case and no citation tag, not even across replacements |
| `Neutralize.InertIsClean` | crates/docmonk-ai/src/prompt.rs:20-69 | Inert texts are exactly those in which no listed marker, in any letter case, and no citation with digits stands at any place |
| `Neutralize.HitLenMeans` | crates/docmonk-ai/src/prompt.rs:20-69 | What is replaced is the first listed marker that stands there, or else the whole citation, and nothing more |
| `Neutralize.UnchangedIffInert` | crates/docmonk-ai/src/prompt.rs:20-69 | A text is left alone if and only if it is inert already |
| `Neutralize.NeutralizedTwice` | crates/docmonk-ai/src/prompt.rs:20-69 | Neutralizing is idempotent |
| `Neutralize.NeutralizeText` | crates/docmonk-ai/src/prompt.rs:20-69 | The loop computes that rewriting for every ASCII text |

## Left out

- HTTP, JSON bodies, refresh and task polling, index mappings and cluster settings: the server is a set of atomic operations.
- Registration and removal of sources, and the error replies for unregistered ones: removal deletes the document and with it the tokens.
- Lost replies to graph promotion, and collections or detachments that stop half way.
- Interference of other processes inside the composite `Backend` methods: they are lease-serialised there, interleavings are the subject of `Interleaving` and `Fencing`.
- The fact cache, the linker, manual links and their intents, tree-sitter extraction, entity ids and the building of underived relationship rows.
- The SQLite store: its lookups are functions or maps with the documented order; sessions and staged tables are the atomic change of the store's fields.
- SHA-256 itself, and fields that are deliberately not fed into digests.
- Vectors and embeddings, search text, diagnostics counters, ranking and highlighting.
- Real WordPiece encoding and Unicode tables beyond the whitespace characters.
- Page ranges, captions and row counts as extracted by `normalize`; the title and the scanned-document flag; pages and token counts in the chunks of `DocumentChunks` (those of a run are in `Chunking.FlushRun`).
- Sleeping between retries, time limits and cancellation by the lost-lease flag.
- `traverse_symbol`, status snapshots, the command line, AI providers, prompt assembly around `neutralize`.
- Diff.DiffScan: file times are compared by a parameter, because the source compares them with a floating-point tolerance.
- Neutralize.NeutralizeText: ASCII text only, because lower-casing other letters may change the number of bytes the source counts with.
- GraphPublication.WriteStreamed: says which of the wanted files are written, but nothing about files that the store no longer has at the second pass, which the source does not detect either.
- DocumentChunks.ChunkDocument: its own payload bound is for paragraph chunks; that of table chunks is `DocumentChunks.TablePayloadsFitIff`, and heading chunks are never split.
- Traverse.Walk: at the limit it says where the walk stopped, not which rows a per-type limited lookup of that last node left out.
- GraphRuns.EveryBuildIsFromScratch: a build in a run is one that succeeded; a failed one changes the lifecycle only, as `GraphStore.ProjectStore.BuildGraph` proves.
