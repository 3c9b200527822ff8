/** Incremental publication of a base build: which files are copied forward is
    decided by the digests the server recorded, and the result is what a full
    rewrite would publish. */
module Publication {
  import opened StateDocument
  import opened Records
  import opened CopyForward

  /** Everything staged for one file: its row and its entities, documents and chunks. */
  datatype Knowledge = Knowledge(row: string, parts: map<Key, string>)

  /** A stored record. A file's record carries its knowledge digest; digests
      are injective, so the digest is the knowledge it was computed from. */
  datatype Body = FileBody(row: string, digest: Knowledge) | PartBody(text: string)

  type Staged = map<FileId, Knowledge>

  /** The records one file contributes. */
  function RecordsOf(f: FileId, k: Knowledge): map<Key, Body>
  {
    (map p | p in k.parts :: PartBody(k.parts[p]))[(Files, f) := FileBody(k.row, k)]
  }

  /** The records of a base build. */
  function BaseContents(staged: Staged): (c: Contents<Body>)
  {
    map f | f in staged :: RecordsOf(f, staged[f])
  }

  /** Part ids are injective: a part has one owning file. */
  ghost predicate PartsAreOwned(staged: Staged)
  {
    && (forall f, p :: f in staged && p in staged[f].parts ==> p.0 in {Code, Documents, Chunks})
    && (forall f, g, p :: f in staged && g in staged && p in staged[f].parts && p in staged[g].parts ==> f == g)
  }

  lemma BaseContentsOwned(staged: Staged)
    requires PartsAreOwned(staged)
    ensures Owned(BASE_KINDS, BaseContents(staged))
  {
  }

  /** Readers of `b` see exactly the staged knowledge, each record once. */
  ghost predicate Publishes(records: Index<Body>, b: BuildId, staged: Staged)
  {
    Holds(BASE_KINDS, records, b, BaseContents(staged))
  }

  // ---- digests --------------------------------------------------------------------

  /** The file record `id` of `b`, with the digest a reader finds in it. */
  ghost predicate RecordsDigest(records: Index<Body>, b: BuildId, id: DocId, f: FileId, d: Knowledge)
  {
    && Shows(BASE_KINDS, records, b, f, id) && id.kind == Files
    && records[id].payload.FileBody? && records[id].payload.digest == d
  }

  /** What the digest query of `b` returns. */
  ghost predicate AreDigestsOf(records: Index<Body>, b: BuildId, digests: map<FileId, Knowledge>)
  {
    && (forall id, f, d :: RecordsDigest(records, b, id, f, d) ==> f in digests)
    && (forall f :: f in digests ==> HasDigest(records, b, f, digests[f]))
  }

  ghost predicate HasDigest(records: Index<Body>, b: BuildId, f: FileId, d: Knowledge)
  {
    exists id :: RecordsDigest(records, b, id, f, d)
  }

  /** The digests of a build that publishes `staged` are the staged knowledge itself. */
  lemma DigestsAreStaged(records: Index<Body>, b: BuildId, staged: Staged, digests: map<FileId, Knowledge>)
    requires Publishes(records, b, staged) && AreDigestsOf(records, b, digests) && PartsAreOwned(staged)
    ensures digests == staged
  {
    var contents := BaseContents(staged);
    forall f | f in digests
      ensures f in staged && digests[f] == staged[f]
    {
      assert HasDigest(records, b, f, digests[f]);
      var id :| RecordsDigest(records, b, id, f, digests[f]);
      assert FileHolds(BASE_KINDS, records, b, f, Wanted(contents, f));
    }
    forall f | f in staged
      ensures f in digests
    {
      assert FileHolds(BASE_KINDS, records, b, f, Wanted(contents, f));
      assert (Files, f) in Wanted(contents, f);
      assert ShowsKey(BASE_KINDS, records, b, f, (Files, f));
      var id :| Shows(BASE_KINDS, records, b, f, id) && KeyOf(id) == (Files, f);
      assert RecordsDigest(records, b, id, f, staged[f]);
    }
  }

  /** `f` is staged with the digest recorded on the server. */
  predicate Unchanged(staged: Staged, digests: map<FileId, Knowledge>, f: FileId)
  {
    f in staged && f in digests && digests[f] == staged[f]
  }

  // ---- main results -----------------------------------------------------------------

  /** Build `b` shows for every file the records of its digest. */
  ghost predicate FilesHold(records: Index<Body>, b: BuildId, digests: map<FileId, Knowledge>)
  {
    forall f :: f in digests ==> FileHolds(BASE_KINDS, records, b, f, RecordsOf(f, digests[f]))
  }

  /** Publishing staged knowledge, record by record: the file record of every
      staged file, with its row and digest, its parts, and nothing else. */
  lemma PublishedRecords(
    records: Index<Body>, b: BuildId, staged: Staged, f: FileId, key: Key, payload: Body)
    requires Publishes(records, b, staged) && PartsAreOwned(staged)
    ensures ShowsRecord(BASE_KINDS, records, b, f, key, payload) <==>
      && f in staged
      && match payload
         case FileBody(row, digest) => key == (Files, f) && row == staged[f].row && digest == staged[f]
         case PartBody(text) => key in staged[f].parts && text == staged[f].parts[key]
  {
    HoldingShowsWanted(BASE_KINDS, records, b, f, Wanted(BaseContents(staged), f), key, payload);
  }

  lemma PublishedFilesHold(records: Index<Body>, b: BuildId, published: Staged)
    requires Publishes(records, b, published)
    ensures FilesHold(records, b, published)
  {
    forall f | f in published
      ensures FileHolds(BASE_KINDS, records, b, f, RecordsOf(f, published[f]))
    {
      assert FileHolds(BASE_KINDS, records, b, f, Wanted(BaseContents(published), f));
    }
  }

  /** Copying unchanged files suffices when the old build shows what its digests say. */
  lemma UnchangedFilesSuffice(
    records: Index<Body>, from: BuildId, b: BuildId, staged: Staged, digests: map<FileId, Knowledge>,
    copied: set<FileId>, written: seq<FileId>, keep: set<BuildId>)
    requires FilesHold(records, from, digests)
    requires IsUnused(records, b) && PartsAreOwned(staged) && Partitions(BaseContents(staged), copied, written)
    requires forall f :: f in copied ==> Unchanged(staged, digests, f)
    ensures Publishes(Incremental(BASE_KINDS, records, from, b, BaseContents(staged), copied, written, keep), b, staged)
  {
    BaseContentsOwned(staged);
    forall f | f in copied
      ensures FileHolds(BASE_KINDS, records, from, f, Wanted(BaseContents(staged), f))
    {
      assert Unchanged(staged, digests, f);
    }
    CopiedFilesSuffice(BASE_KINDS, records, from, b, BaseContents(staged), copied, written, keep);
  }

  /** Incremental publication is right: if the active build publishes what was
      staged for it, copying the files whose server digest is the staged one
      and writing the others publishes exactly the staged knowledge. */
  lemma IncrementalPublishesStaged(
    records: Index<Body>, from: BuildId, b: BuildId, previous: Staged, staged: Staged,
    digests: map<FileId, Knowledge>, copied: set<FileId>, written: seq<FileId>, keep: set<BuildId>)
    requires Publishes(records, from, previous) && PartsAreOwned(previous)
    requires AreDigestsOf(records, from, digests)
    requires IsUnused(records, b) && PartsAreOwned(staged) && Partitions(BaseContents(staged), copied, written)
    requires forall f :: f in copied ==> Unchanged(staged, digests, f)
    ensures Publishes(Incremental(BASE_KINDS, records, from, b, BaseContents(staged), copied, written, keep), b, staged)
  {
    DigestsAreStaged(records, from, previous, digests);
    PublishedFilesHold(records, from, previous);
    UnchangedFilesSuffice(records, from, b, staged, digests, copied, written, keep);
  }

  /** It refines a full rewrite: record for record, keys and payloads, the
      incremental path shows what writing every staged file shows. */
  lemma IncrementalRefinesFullRewrite(
    records: Index<Body>, from: BuildId, b: BuildId, previous: Staged, staged: Staged,
    digests: map<FileId, Knowledge>, copied: set<FileId>, written: seq<FileId>, all: seq<FileId>,
    keep: set<BuildId>, f: FileId, key: Key, payload: Body)
    requires Publishes(records, from, previous) && PartsAreOwned(previous)
    requires AreDigestsOf(records, from, digests)
    requires IsUnused(records, b) && PartsAreOwned(staged)
    requires Partitions(BaseContents(staged), copied, written) && Partitions(BaseContents(staged), {}, all)
    requires forall g :: g in copied ==> Unchanged(staged, digests, g)
    ensures
      var incremental := Incremental(BASE_KINDS, records, from, b, BaseContents(staged), copied, written, keep);
      ShowsRecord(BASE_KINDS, incremental, b, f, key, payload) <==>
        ShowsRecord(BASE_KINDS, WriteFiles(records, b, BaseContents(staged), all), b, f, key, payload)
  {
    IncrementalPublishesStaged(records, from, b, previous, staged, digests, copied, written, keep);
    var contents := BaseContents(staged);
    BaseContentsOwned(staged);
    CopiedFilesSuffice(BASE_KINDS, records, from, b, contents, {}, all, keep);
    assert Attach(records, BASE_KINDS, from, b, {}, keep) == records;
    var incremental := Incremental(BASE_KINDS, records, from, b, contents, copied, written, keep);
    var full := WriteFiles(records, b, contents, all);
    HoldingShowsTheSame(BASE_KINDS, incremental, b, full, b, contents, f, key, payload);
  }
}
