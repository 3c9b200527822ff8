/** The build-scoped records of one source: each carries the set of builds it
    belongs to. Copy-forward adds a build, detaching removes one, garbage
    collection deletes what no kept build has. */
module Records {
  import opened StateDocument

  type FileId = string

  datatype Kind = Files | Code | Documents | Chunks | Relationships

  /** `_id` of a record: the build (or graph generation) that wrote it and its own id. */
  datatype DocId = DocId(writer: BuildId, kind: Kind, record: string)

  datatype Record<P> = Record(file: FileId, payload: P, builds: set<BuildId>, manual: bool)

  /** A record's kind and its own id, unique within a build. */
  type Key = (Kind, string)

  /** The kinds a base build writes, and those a graph generation writes. */
  const BASE_KINDS: set<Kind> := {Files, Code, Documents, Chunks}
  const GRAPH_KINDS: set<Kind> := {Relationships}

  type Index<P> = map<DocId, Record<P>>

  /** What a reader pinned to build `b` sees. */
  ghost function View<P>(records: Index<P>, b: BuildId): map<DocId, (FileId, P)>
  {
    map id | id in records && b in records[id].builds :: (records[id].file, records[id].payload)
  }

  /** Readers pinned to build `b` see no record. */
  ghost predicate ShowsNothing<P>(records: Index<P>, b: BuildId)
  {
    forall id :: id in records ==> b !in records[id].builds
  }

  // ---- server-side operations -----------------------------------------------------

  /** The copy-forward script over the records of `files` in build `from`:
      drop builds outside `keep`, add `to`. */
  function Attach<P>(
    records: Index<P>, kinds: set<Kind>, from: BuildId, to: BuildId, files: set<FileId>, keep: set<BuildId>): Index<P>
  {
    map id | id in records ::
      var r := records[id];
      if id.kind in kinds && from in r.builds && r.file in files then r.(builds := (r.builds * (keep + {to})) + {to})
      else r
  }

  /** The detach script: `b` leaves every record, a record left without a build is deleted. */
  function Detach<P>(records: Index<P>, b: BuildId): Index<P>
  {
    map id | id in records && records[id].builds != {b} :: records[id].(builds := records[id].builds - {b})
  }

  /** Deletes every record of no kept build; manual links survive. */
  function Collect<P>(records: Index<P>, keep: set<BuildId>): Index<P>
  {
    map id | id in records && (records[id].manual || records[id].builds * keep != {}) :: records[id]
  }

  function KeyOf(id: DocId): Key
  {
    (id.kind, id.record)
  }

  predicate KeysIn<V>(docs: map<Key, V>, kinds: set<Kind>)
  {
    forall key :: key in docs ==> key.0 in kinds
  }

  /** Bulk-indexed records of build `b`. */
  function Put<P>(records: Index<P>, b: BuildId, docs: map<Key, (FileId, P)>): Index<P>
  {
    records + map id: DocId | id in WrittenIds(b, docs) ::
      Record(docs[KeyOf(id)].0, docs[KeyOf(id)].1, {b}, false)
  }

  function WrittenIds<P>(b: BuildId, docs: map<Key, (FileId, P)>): (ids: set<DocId>)
    ensures forall id :: id in ids <==> id.writer == b && KeyOf(id) in docs
  {
    set k | k in docs :: DocId(b, k.0, k.1)
  }

  // ---- what they do to views -----------------------------------------------------------

  lemma AttachKeepsView<P>(
    records: Index<P>, kinds: set<Kind>, from: BuildId, to: BuildId, files: set<FileId>, keep: set<BuildId>, b: BuildId)
    requires b in keep && b != to
    ensures View(Attach(records, kinds, from, to, files, keep), b) == View(records, b)
  {
  }

  /** The new build gains exactly the copied files' records of the old one. */
  lemma AttachExtendsView<P>(
    records: Index<P>, kinds: set<Kind>, from: BuildId, to: BuildId, files: set<FileId>, keep: set<BuildId>, id: DocId)
    ensures id in View(Attach(records, kinds, from, to, files, keep), to) <==>
      id in View(records, to) || (id in View(records, from) && id.kind in kinds && View(records, from)[id].0 in files)
    ensures id in View(records, from) && id in View(Attach(records, kinds, from, to, files, keep), to) ==>
      View(Attach(records, kinds, from, to, files, keep), to)[id] == View(records, from)[id]
    ensures id in View(records, to) ==>
      View(Attach(records, kinds, from, to, files, keep), to)[id] == View(records, to)[id]
  {
  }

  /** Copying in batches is copying at once. */
  lemma AttachInBatches<P>(
    records: Index<P>, kinds: set<Kind>, from: BuildId, to: BuildId, one: set<FileId>, two: set<FileId>,
    keep: set<BuildId>)
    ensures Attach(Attach(records, kinds, from, to, one, keep), kinds, from, to, two, keep)
      == Attach(records, kinds, from, to, one + two, keep)
  {
    var first := Attach(records, kinds, from, to, one, keep);
    forall id | id in records
      ensures Attach(first, kinds, from, to, two, keep)[id] == Attach(records, kinds, from, to, one + two, keep)[id]
    {
      var kept := (records[id].builds * (keep + {to})) + {to};
      assert (kept * (keep + {to})) + {to} == kept;
    }
  }

  lemma DetachKeepsOtherViews<P>(records: Index<P>, dropped: BuildId, b: BuildId)
    requires b != dropped
    ensures View(Detach(records, dropped), b) == View(records, b)
  {
  }

  lemma DetachEmptiesView<P>(records: Index<P>, dropped: BuildId)
    ensures View(Detach(records, dropped), dropped) == map[]
  {
  }

  lemma CollectKeepsView<P>(records: Index<P>, keep: set<BuildId>, b: BuildId)
    requires b in keep
    ensures View(Collect(records, keep), b) == View(records, b)
  {
    forall id | id in View(records, b)
      ensures id in Collect(records, keep)
    {
      assert b in records[id].builds * keep;
    }
  }

  lemma PutKeepsOtherViews<P>(records: Index<P>, written: BuildId, docs: map<Key, (FileId, P)>, b: BuildId)
    requires b != written
    requires forall id :: id in records && id.writer == written ==> records[id].builds <= {written}
    ensures View(Put(records, written, docs), b) == View(records, b)
  {
  }

  /** Garbage collection keeps exactly the views it can name: a build outside
      `keep` keeps a record only when that record is shared with a kept build
      (or is a manual link). */
  lemma CollectedView<P>(records: Index<P>, keep: set<BuildId>, b: BuildId, id: DocId)
    requires id in View(records, b)
    ensures id in View(Collect(records, keep), b) <==> records[id].manual || records[id].builds * keep != {}
  {
  }

  // ---- what they do to records -----------------------------------------------------------

  /** Copy-forward neither adds nor deletes records: a copied one gains the new
      build and loses those that are not kept, every other one stays as it is. */
  lemma AttachedRecord<P>(
    records: Index<P>, kinds: set<Kind>, from: BuildId, to: BuildId, files: set<FileId>, keep: set<BuildId>, id: DocId)
    ensures
      var after := Attach(records, kinds, from, to, files, keep);
      (id in after <==> id in records) &&
      (id in records ==>
         var r, s := records[id], after[id];
         if from in r.builds && r.file in files && id.kind in kinds then
           s.file == r.file && s.payload == r.payload && s.manual == r.manual &&
           forall b :: b in s.builds <==> b == to || (b in r.builds && b in keep)
         else s == r)
  {
  }

  /** Detaching a build deletes exactly the records of no other build. */
  lemma DetachedRecord<P>(records: Index<P>, b: BuildId, id: DocId)
    requires id in records
    ensures
      var r, after := records[id], Detach(records, b);
      if b !in r.builds then id in after && after[id] == r
      else
        (id in after <==> exists c :: c in r.builds && c != b) &&
        (id in after ==>
           after[id].file == r.file && after[id].payload == r.payload && after[id].manual == r.manual &&
           forall c :: c in after[id].builds <==> c in r.builds && c != b)
  {
    if forall c :: c in records[id].builds ==> c == b {
      if b in records[id].builds { OnlyMember(records[id].builds, b); }
    }
  }

  lemma OnlyMember(s: set<BuildId>, b: BuildId)
    requires b in s && forall c :: c in s ==> c == b
    ensures s == {b}
  {
  }

  /** Collection deletes exactly what no kept build has, manual links aside. */
  lemma CollectedRecord<P>(records: Index<P>, keep: set<BuildId>, id: DocId)
    requires id in records
    ensures id in Collect(records, keep) <==> records[id].manual || exists b :: b in keep && b in records[id].builds
    ensures id in Collect(records, keep) ==> Collect(records, keep)[id] == records[id]
  {
    var shared := records[id].builds * keep;
    if shared != {} {
      var b :| b in shared;
    }
    if b :| b in keep && b in records[id].builds {
      assert b in shared;
    }
  }

  /** Writing stores each record under its own id, for its build alone, and leaves the others. */
  lemma PutRecord<P>(records: Index<P>, b: BuildId, docs: map<Key, (FileId, P)>, id: DocId)
    ensures
      var after := Put(records, b, docs);
      if id.writer == b && (id.kind, id.record) in docs then
        id in after && after[id].file == docs[(id.kind, id.record)].0 &&
        after[id].payload == docs[(id.kind, id.record)].1 && after[id].builds == {b} && !after[id].manual
      else (id in after <==> id in records) && (id in records ==> after[id] == records[id])
  {
  }
}
