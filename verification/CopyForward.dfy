/** Building a new set of records out of an old one: the files whose contents
    did not change are copied forward in place, the others are written. */
module CopyForward {
  import opened StateDocument
  import opened Records

  /** What is to be published: the records of every file. */
  type Contents<P> = map<FileId, map<Key, P>>

  /** Record ids are injective: a record has one owning file. */
  ghost predicate Owned<P>(kinds: set<Kind>, staged: Contents<P>)
  {
    && (forall f, key :: f in staged && key in staged[f] ==> key.0 in kinds)
    && (forall f, g, key :: f in staged && g in staged && key in staged[f] && key in staged[g] ==> f == g)
  }

  /** The documents of one file. */
  function Docs<P>(f: FileId, parts: map<Key, P>): map<Key, (FileId, P)>
  {
    map key | key in parts :: (f, parts[key])
  }

  /** The records staged for `f`; none for a file that is not staged. */
  function Wanted<P>(staged: Contents<P>, f: FileId): map<Key, P>
  {
    if f in staged then staged[f] else map[]
  }

  // ---- what a build shows ---------------------------------------------------------

  /** `id` is a record of `f` that readers of `b` see. */
  ghost predicate Shows<P>(kinds: set<Kind>, records: Index<P>, b: BuildId, f: FileId, id: DocId)
  {
    id in records && b in records[id].builds && id.kind in kinds && records[id].file == f
  }

  ghost predicate ShowsKey<P>(kinds: set<Kind>, records: Index<P>, b: BuildId, f: FileId, key: Key)
  {
    exists id :: Shows(kinds, records, b, f, id) && KeyOf(id) == key
  }

  /** Readers of `b` see exactly `want` for the file `f`, each record once. */
  ghost predicate FileHolds<P>(kinds: set<Kind>, records: Index<P>, b: BuildId, f: FileId, want: map<Key, P>)
  {
    && (forall id :: Shows(kinds, records, b, f, id) ==> KeyOf(id) in want && want[KeyOf(id)] == records[id].payload)
    && (forall key :: key in want ==> ShowsKey(kinds, records, b, f, key))
    && (forall id, jd :: Shows(kinds, records, b, f, id) && Shows(kinds, records, b, f, jd) && KeyOf(id) == KeyOf(jd)
          ==> id == jd)
  }

  /** Readers of `b` see exactly the staged knowledge, each record once. */
  ghost predicate Holds<P>(kinds: set<Kind>, records: Index<P>, b: BuildId, staged: Contents<P>)
  {
    forall f :: FileHolds(kinds, records, b, f, Wanted(staged, f))
  }

  /** Two indexes that show the same records of `f`, in builds `b` and `c`. */
  ghost predicate SameFile<P>(kinds: set<Kind>, one: Index<P>, b: BuildId, two: Index<P>, c: BuildId, f: FileId)
  {
    && (forall id :: Shows(kinds, one, b, f, id) <==> Shows(kinds, two, c, f, id))
    && (forall id :: Shows(kinds, one, b, f, id) && Shows(kinds, two, c, f, id) ==> one[id].payload == two[id].payload)
  }

  lemma SameFileHolds<P>(
    kinds: set<Kind>, one: Index<P>, b: BuildId, two: Index<P>, c: BuildId, f: FileId, want: map<Key, P>)
    requires SameFile(kinds, one, b, two, c, f) && FileHolds(kinds, one, b, f, want)
    ensures FileHolds(kinds, two, c, f, want)
  {
  }

  /** What readers see depends on the view only. */
  lemma SameViewSameFile<P>(kinds: set<Kind>, one: Index<P>, two: Index<P>, b: BuildId, f: FileId)
    requires View(one, b) == View(two, b)
    ensures SameFile(kinds, one, b, two, b, f)
  {
    forall id
      ensures Shows(kinds, one, b, f, id) <==> Shows(kinds, two, b, f, id)
      ensures Shows(kinds, one, b, f, id) ==> one[id].payload == two[id].payload
    {
      assert id in View(one, b) <==> id in View(two, b);
      if id in View(one, b) { assert View(one, b)[id] == View(two, b)[id]; }
    }
  }

  /** Whatever keeps a build's view keeps what it holds. */
  lemma SameViewHolds<P>(kinds: set<Kind>, one: Index<P>, two: Index<P>, b: BuildId, staged: Contents<P>)
    requires View(one, b) == View(two, b) && Holds(kinds, one, b, staged)
    ensures Holds(kinds, two, b, staged)
  {
    forall f
      ensures FileHolds(kinds, two, b, f, Wanted(staged, f))
    {
      SameViewSameFile(kinds, one, two, b, f);
      SameFileHolds(kinds, one, b, two, b, f, Wanted(staged, f));
    }
  }

  // ---- copying and writing ------------------------------------------------------------

  /** A build id no record carries yet. */
  ghost predicate IsUnused<P>(records: Index<P>, b: BuildId)
  {
    forall id :: id in records ==> id.writer != b && b !in records[id].builds
  }

  /** The bulk writes of `files`, one file after another. */
  function WriteFiles<P>(records: Index<P>, b: BuildId, staged: Contents<P>, files: seq<FileId>): Index<P>
    requires forall f :: f in files ==> f in staged
  {
    if files == [] then records
    else
      var last := |files| - 1;
      Put(WriteFiles(records, b, staged, files[..last]), b, Docs(files[last], staged[files[last]]))
  }

  lemma OneMoreFile<P>(records: Index<P>, b: BuildId, staged: Contents<P>, files: seq<FileId>, i: nat)
    requires i < |files| && forall f :: f in files ==> f in staged
    ensures WriteFiles(records, b, staged, files[..i + 1])
      == Put(WriteFiles(records, b, staged, files[..i]), b, Docs(files[i], staged[files[i]]))
  {
    assert files[..i + 1][..i] == files[..i];
  }

  /** Writing the files that have contents, the others being skipped. */
  function WriteFound<P>(records: Index<P>, b: BuildId, contents: Contents<P>, files: seq<FileId>): Index<P>
  {
    if files == [] then records
    else
      var last := |files| - 1;
      var before := WriteFound(records, b, contents, files[..last]);
      if files[last] in contents then Put(before, b, Docs(files[last], contents[files[last]])) else before
  }

  lemma OneMoreFound<P>(records: Index<P>, b: BuildId, contents: Contents<P>, files: seq<FileId>, i: nat)
    requires i < |files|
    ensures
      var before := WriteFound(records, b, contents, files[..i]);
      WriteFound(records, b, contents, files[..i + 1]) ==
        if files[i] in contents then Put(before, b, Docs(files[i], contents[files[i]])) else before
  {
    assert files[..i + 1][..i] == files[..i];
  }

  /** If the files all have the staged contents, nothing is skipped. */
  lemma {:induction false} AllFound<P>(
    records: Index<P>, b: BuildId, contents: Contents<P>, staged: Contents<P>, files: seq<FileId>)
    requires forall f :: f in files ==> f in contents && f in staged && contents[f] == staged[f]
    ensures WriteFound(records, b, contents, files) == WriteFiles(records, b, staged, files)
    decreases |files|
  {
    if files != [] {
      AllFound(records, b, contents, staged, files[..|files| - 1]);
    }
  }

  /** `files` copied from `from`, then the others written. */
  function Incremental<P>(
    kinds: set<Kind>, records: Index<P>, from: BuildId, b: BuildId, staged: Contents<P>, copied: set<FileId>,
    written: seq<FileId>, keep: set<BuildId>): Index<P>
    requires forall f :: f in written ==> f in staged
  {
    WriteFiles(Attach(records, kinds, from, b, copied, keep), b, staged, written)
  }

  /** The written files are exactly the staged files that are not copied. */
  ghost predicate Partitions<P>(staged: Contents<P>, copied: set<FileId>, written: seq<FileId>)
  {
    && copied <= staged.Keys
    && (forall f :: f in written <==> f in staged && f !in copied)
  }

  /** `id` is a record written for one of `files`. */
  ghost predicate IsWritten<P>(b: BuildId, staged: Contents<P>, files: seq<FileId>, id: DocId)
  {
    id.writer == b && exists f :: f in files && f in staged && KeyOf(id) in staged[f]
  }

  /** Writing a build touches no other build's documents. */
  lemma {:induction false} WriteFilesKeepsOthers<P>(
    records: Index<P>, b: BuildId, staged: Contents<P>, files: seq<FileId>, id: DocId)
    requires forall f :: f in files ==> f in staged
    requires id.writer != b
    ensures var after := WriteFiles(records, b, staged, files);
      (id in after <==> id in records) && (id in records ==> after[id] == records[id])
    decreases |files|
  {
    if files != [] {
      WriteFilesKeepsOthers(records, b, staged, files[..|files| - 1], id);
    }
  }

  /** The documents of the build are those of the written files. */
  lemma {:induction false} WriteFilesIds<P>(
    records: Index<P>, b: BuildId, staged: Contents<P>, files: seq<FileId>, id: DocId)
    requires forall f :: f in files ==> f in staged
    requires id.writer == b && id !in records
    ensures id in WriteFiles(records, b, staged, files) <==> IsWritten(b, staged, files, id)
    decreases |files|
  {
    if files != [] {
      var last := |files| - 1;
      WriteFilesIds(records, b, staged, files[..last], id);
      assert forall f :: f in files <==> f in files[..last] || f == files[last];
    }
  }

  /** `r` is what was staged for the record `id` of one of `files`. */
  ghost predicate IsStagedRecord<P>(b: BuildId, staged: Contents<P>, files: seq<FileId>, id: DocId, r: Record<P>)
  {
    && r.builds == {b} && r.file in files && r.file in staged
    && KeyOf(id) in staged[r.file]
    && staged[r.file][KeyOf(id)] == r.payload
  }

  lemma {:induction false} WriteFilesContent<P>(
    records: Index<P>, b: BuildId, staged: Contents<P>, files: seq<FileId>, id: DocId)
    requires forall f :: f in files ==> f in staged
    requires id.writer == b && id !in records && id in WriteFiles(records, b, staged, files)
    ensures IsStagedRecord(b, staged, files, id, WriteFiles(records, b, staged, files)[id])
    decreases |files|
  {
    var last := |files| - 1;
    var wanted := Docs(files[last], staged[files[last]]);
    if KeyOf(id) in wanted {
      assert WriteFiles(records, b, staged, files)[id].builds == {b};
    } else {
      assert id !in WrittenIds(b, wanted);
      WriteFilesContent(records, b, staged, files[..last], id);
    }
  }

  lemma AttachedShows<P>(
    kinds: set<Kind>, records: Index<P>, from: BuildId, b: BuildId, copied: set<FileId>, keep: set<BuildId>, f: FileId,
    id: DocId)
    requires IsUnused(records, b)
    ensures Shows(kinds, Attach(records, kinds, from, b, copied, keep), b, f, id)
      <==> f in copied && Shows(kinds, records, from, f, id)
  {
  }

  /** A copied file shows in the new build what it showed in the old one. */
  lemma CopiedFile<P>(
    kinds: set<Kind>, records: Index<P>, from: BuildId, b: BuildId, staged: Contents<P>, copied: set<FileId>,
    written: seq<FileId>, keep: set<BuildId>, f: FileId)
    requires IsUnused(records, b) && Owned(kinds, staged) && Partitions(staged, copied, written)
    requires f in copied
    ensures SameFile(kinds, records, from, Incremental(kinds, records, from, b, staged, copied, written, keep), b, f)
  {
    var attached := Attach(records, kinds, from, b, copied, keep);
    var after := Incremental(kinds, records, from, b, staged, copied, written, keep);
    forall id
      ensures Shows(kinds, records, from, f, id) <==> Shows(kinds, after, b, f, id)
      ensures Shows(kinds, records, from, f, id) ==> id in after && after[id].payload == records[id].payload
    {
      AttachedShows(kinds, records, from, b, copied, keep, f, id);
      if id.writer != b {
        WriteFilesKeepsOthers(attached, b, staged, written, id);
      } else {
        WriteFilesIds(attached, b, staged, written, id);
        if id in after { WriteFilesContent(attached, b, staged, written, id); }
      }
    }
  }

  lemma WrittenShows<P>(
    kinds: set<Kind>, records: Index<P>, from: BuildId, b: BuildId, staged: Contents<P>, copied: set<FileId>,
    written: seq<FileId>, keep: set<BuildId>, f: FileId, id: DocId)
    requires IsUnused(records, b) && Owned(kinds, staged) && Partitions(staged, copied, written)
    requires f !in copied
    ensures Shows(kinds, Incremental(kinds, records, from, b, staged, copied, written, keep), b, f, id)
      <==> id.writer == b && KeyOf(id) in Wanted(staged, f)
    ensures Shows(kinds, Incremental(kinds, records, from, b, staged, copied, written, keep), b, f, id)
      ==> Wanted(staged, f)[KeyOf(id)]
          == Incremental(kinds, records, from, b, staged, copied, written, keep)[id].payload
  {
    var attached := Attach(records, kinds, from, b, copied, keep);
    AttachedShows(kinds, records, from, b, copied, keep, f, id);
    if id.writer != b {
      WriteFilesKeepsOthers(attached, b, staged, written, id);
    } else {
      WriteFilesIds(attached, b, staged, written, id);
      if id in WriteFiles(attached, b, staged, written) { WriteFilesContent(attached, b, staged, written, id); }
    }
  }

  /** A file that is not copied shows exactly what is staged for it. */
  lemma WrittenFile<P>(
    kinds: set<Kind>, records: Index<P>, from: BuildId, b: BuildId, staged: Contents<P>, copied: set<FileId>,
    written: seq<FileId>, keep: set<BuildId>, f: FileId)
    requires IsUnused(records, b) && Owned(kinds, staged) && Partitions(staged, copied, written)
    requires f !in copied
    ensures
      FileHolds(kinds, Incremental(kinds, records, from, b, staged, copied, written, keep), b, f, Wanted(staged, f))
  {
    var after := Incremental(kinds, records, from, b, staged, copied, written, keep);
    forall id
      ensures Shows(kinds, after, b, f, id) <==> id.writer == b && KeyOf(id) in Wanted(staged, f)
      ensures Shows(kinds, after, b, f, id) ==> Wanted(staged, f)[KeyOf(id)] == after[id].payload
    {
      WrittenShows(kinds, records, from, b, staged, copied, written, keep, f, id);
    }
    forall key | key in Wanted(staged, f)
      ensures ShowsKey(kinds, after, b, f, key)
    {
      assert Shows(kinds, after, b, f, DocId(b, key.0, key.1));
    }
  }

  // ---- main results -----------------------------------------------------------------

  /** Exactly when copying forward and writing the rest publishes the staged
      knowledge: when the copied files already show it in the old build. */
  lemma IncrementalHoldsIff<P>(
    kinds: set<Kind>, records: Index<P>, from: BuildId, b: BuildId, staged: Contents<P>, copied: set<FileId>,
    written: seq<FileId>, keep: set<BuildId>)
    requires IsUnused(records, b) && Owned(kinds, staged) && Partitions(staged, copied, written)
    ensures Holds(kinds, Incremental(kinds, records, from, b, staged, copied, written, keep), b, staged)
      <==> forall f :: f in copied ==> FileHolds(kinds, records, from, f, Wanted(staged, f))
  {
    var after := Incremental(kinds, records, from, b, staged, copied, written, keep);
    forall f | f in copied
      ensures FileHolds(kinds, records, from, f, Wanted(staged, f))
        <==> FileHolds(kinds, after, b, f, Wanted(staged, f))
    {
      CopiedFile(kinds, records, from, b, staged, copied, written, keep, f);
      if FileHolds(kinds, records, from, f, Wanted(staged, f)) {
        SameFileHolds(kinds, records, from, after, b, f, Wanted(staged, f));
      }
      if FileHolds(kinds, after, b, f, Wanted(staged, f)) {
        SameFileHolds(kinds, after, b, records, from, f, Wanted(staged, f));
      }
    }
    forall f | f !in copied
      ensures FileHolds(kinds, after, b, f, Wanted(staged, f))
    {
      WrittenFile(kinds, records, from, b, staged, copied, written, keep, f);
    }
  }

  lemma CopiedFilesSuffice<P>(
    kinds: set<Kind>, records: Index<P>, from: BuildId, b: BuildId, staged: Contents<P>, copied: set<FileId>,
    written: seq<FileId>, keep: set<BuildId>)
    requires IsUnused(records, b) && Owned(kinds, staged) && Partitions(staged, copied, written)
    requires forall f :: f in copied ==> FileHolds(kinds, records, from, f, Wanted(staged, f))
    ensures Holds(kinds, Incremental(kinds, records, from, b, staged, copied, written, keep), b, staged)
  {
    IncrementalHoldsIff(kinds, records, from, b, staged, copied, written, keep);
  }

  /** Readers of `b` see for `f` a record with this key and payload. */
  ghost predicate ShowsRecord<P>(kinds: set<Kind>, records: Index<P>, b: BuildId, f: FileId, key: Key, payload: P)
  {
    exists id :: Shows(kinds, records, b, f, id) && KeyOf(id) == key && records[id].payload == payload
  }

  lemma HoldingShowsWanted<P>(
    kinds: set<Kind>, records: Index<P>, b: BuildId, f: FileId, want: map<Key, P>, key: Key, payload: P)
    requires FileHolds(kinds, records, b, f, want)
    ensures ShowsRecord(kinds, records, b, f, key, payload) <==> key in want && want[key] == payload
  {
    if key in want {
      assert ShowsKey(kinds, records, b, f, key);
    }
  }

  /** Two builds that hold the same knowledge show the same records. */
  lemma HoldingShowsTheSame<P>(
    kinds: set<Kind>, one: Index<P>, b: BuildId, two: Index<P>, c: BuildId, staged: Contents<P>, f: FileId, key: Key,
    payload: P)
    requires Holds(kinds, one, b, staged) && Holds(kinds, two, c, staged)
    ensures ShowsRecord(kinds, one, b, f, key, payload) <==> ShowsRecord(kinds, two, c, f, key, payload)
  {
    HoldingShowsWanted(kinds, one, b, f, Wanted(staged, f), key, payload);
    HoldingShowsWanted(kinds, two, c, f, Wanted(staged, f), key, payload);
  }

  /** Publication's garbage collection keeps the new build complete, so the
      next incremental publication starts from a build that holds what was staged. */
  lemma CollectionKeepsHolding<P>(
    kinds: set<Kind>, records: Index<P>, keep: set<BuildId>, b: BuildId, staged: Contents<P>)
    requires Holds(kinds, records, b, staged) && b in keep
    ensures Holds(kinds, Collect(records, keep), b, staged)
  {
    CollectKeepsView(records, keep, b);
    SameViewHolds(kinds, records, Collect(records, keep), b, staged);
  }
}
