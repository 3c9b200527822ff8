/** Incremental change detection: scanned files against the baseline rows. */
module Diff {
  import opened Wrappers
  import opened Sorting

  datatype ScannedFile = ScannedFile(path: string, size: int, mtime: real)

  datatype FileRow = FileRow(
    path: string, kind: string, size: int, mtime: real, contentHash: Option<string>,
    status: string, nextAttempt: Option<string>, lastIndexed: Option<string>)

  /** The comparisons of stats and the classification by path. */
  datatype Rules = Rules(
    statUnchanged: (FileRow, ScannedFile) -> bool,
    racy: (FileRow, ScannedFile) -> bool,
    classify: string -> string,
    parseKind: string -> string)

  datatype Change = New | Changed | Unchanged | UnchangedRestat | Moved | Unseen | Deleted

  datatype Decision = Decision(
    change: Change, path: string, kind: string, scanned: Option<ScannedFile>, prev: Option<FileRow>,
    movedFrom: Option<FileRow>, contentHash: Option<string>)

  datatype Counts = Counts(
    scanned: nat, created: nat, changed: nat, same: nat, moved: nat, deleted: nat, unseen: nat)

  /** A retry is due when it has no next attempt or that time has come. */
  predicate Due(r: FileRow, now: string)
  {
    r.nextAttempt.None? || StrLe(r.nextAttempt.value, now)
  }

  /** The row waits for a retry whose time, if it has one, is not after `now`. */
  ghost predicate RetryIsDue(r: FileRow, now: string)
  {
    r.status == "retry" &&
    match r.nextAttempt
    case Some(time) => StrLe(time, now)
    case None => true
  }

  /** A known file that is hashed: a due retry, a stat that changed, or one not to be trusted. */
  predicate NeedsHash(rules: Rules, p: FileRow, f: ScannedFile, now: string)
  {
    (p.status == "retry" && Due(p, now)) || !rules.statUnchanged(p, f) || rules.racy(p, f)
  }

  // ---- the inputs -------------------------------------------------------------------

  function Paths(scan: seq<ScannedFile>): (r: set<string>)
    ensures forall f :: f in scan ==> f.path in r
  {
    set f | f in scan :: f.path
  }

  /** Paths are keys in a scan and in a baseline. */
  ghost predicate DistinctScan(scan: seq<ScannedFile>)
  {
    forall i, j :: 0 <= i < j < |scan| ==> scan[i].path != scan[j].path
  }

  ghost predicate DistinctRows(baseline: seq<FileRow>)
  {
    forall i, j :: 0 <= i < j < |baseline| ==> baseline[i].path != baseline[j].path
  }

  function ByPath(baseline: seq<FileRow>): (r: map<string, FileRow>)
    ensures forall p :: p in r ==> r[p] in baseline && r[p].path == p
    ensures forall row :: row in baseline ==> row.path in r
  {
    if baseline == [] then map[]
    else ByPath(baseline[..|baseline| - 1])[baseline[|baseline| - 1].path := baseline[|baseline| - 1]]
  }

  /** A baseline row whose path the scan did not see. */
  predicate Vanished(scan: seq<ScannedFile>, r: FileRow)
  {
    r.path !in Paths(scan)
  }

  /** A vanished row with a hash makes a rename possible. */
  predicate RenamesPossible(scan: seq<ScannedFile>, baseline: seq<FileRow>)
  {
    exists r :: r in baseline && r.contentHash.Some? && Vanished(scan, r)
  }

  /** Whether the file is hashed: the specification of `HashCandidates`. */
  predicate IsCandidate(
    rules: Rules, known: map<string, FileRow>, renames: bool, now: string, f: ScannedFile)
  {
    if f.path in known then NeedsHash(rules, known[f.path], f, now) else renames
  }

  /** The scanned files that will be hashed. */
  function HashCandidates(rules: Rules, scan: seq<ScannedFile>, baseline: seq<FileRow>, now: string): seq<ScannedFile>
  {
    Candidates(rules, ByPath(baseline), RenamesPossible(scan, baseline), now, scan)
  }

  function Candidates(
    rules: Rules, known: map<string, FileRow>, renames: bool, now: string, files: seq<ScannedFile>):
    (r: seq<ScannedFile>)
    ensures forall f :: f in r <==> f in files && IsCandidate(rules, known, renames, now, f)
  {
    if files == [] then []
    else
      var last := files[|files| - 1];
      Candidates(rules, known, renames, now, files[..|files| - 1]) +
      if IsCandidate(rules, known, renames, now, last) then [last] else []
  }

  // ---- hashing ------------------------------------------------------------------------

  function Lookup(hashes: map<string, string>, path: string): Option<string>
  {
    if path in hashes then Some(hashes[path]) else None
  }

  /** One of the first `calls` calls asked for `path` and got `h`. */
  ghost predicate HasAnswered(hash: (nat, string) -> Option<string>, calls: nat, path: string, h: Option<string>)
  {
    exists n: nat :: n < calls && hash(n, path) == h
  }

  /** Every remembered hash is an answer for its file. */
  ghost predicate Genuine(hash: (nat, string) -> Option<string>, calls: nat, hashes: map<string, string>)
  {
    forall p :: p in hashes ==> HasAnswered(hash, calls, p, Some(hashes[p]))
  }

  lemma AnswerStays(hash: (nat, string) -> Option<string>, calls: nat, more: nat, path: string, h: Option<string>)
    requires HasAnswered(hash, calls, path, h) && calls <= more
    ensures HasAnswered(hash, more, path, h)
  {
    var n: nat :| n < calls && hash(n, path) == h;
  }

  /** The call for `path` repeats an earlier one that failed. */
  ghost function Repeats(asked: set<string>, hashes: map<string, string>, path: string): multiset<string>
  {
    if path in asked && path !in hashes then multiset{path} else multiset{}
  }

  lemma CallCounted(asked: set<string>, again: multiset<string>, hashes: map<string, string>, path: string)
    requires hashes.Keys <= asked
    ensures |asked + {path}| + |again + Repeats(asked, hashes, path)|
      == |asked| + |again| + if path in hashes then 0 else 1
  {
    if path in asked {
      assert asked + {path} == asked;
    }
  }

  /** Hashes files once: a success is remembered, a failure is not. */
  class Hasher {
    /** The n-th call to the hash function, for a path. */
    const hash: (nat, string) -> Option<string>
    var hashes: map<string, string>
    var calls: nat
    /** The files asked about, and those hashed again. */
    ghost var asked: set<string>
    ghost var again: multiset<string>

    ghost predicate Valid()
      reads this
    {
      Genuine(hash, calls, hashes) && hashes.Keys <= asked && calls == |asked| + |again|
    }

    constructor (hash: (nat, string) -> Option<string>)
      ensures Valid() && hashes == map[] && calls == 0 && asked == {} && again == multiset{} && this.hash == hash
    {
      this.hash, hashes, calls, asked, again := hash, map[], 0, {}, multiset{};
    }

    method HashOf(f: ScannedFile) returns (h: Option<string>)
      requires Valid()
      modifies this
      ensures Valid() && asked == old(asked) + {f.path}
      ensures f.path in old(hashes) ==> hashes == old(hashes) && calls == old(calls)
      ensures f.path !in old(hashes) ==> h == hash(old(calls), f.path) && calls == old(calls) + 1
      ensures f.path !in old(hashes) ==>
        hashes == if h.Some? then old(hashes)[f.path := h.value] else old(hashes)
      ensures h == Lookup(hashes, f.path) && HasAnswered(hash, calls, f.path, h)
      ensures again == old(again) + Repeats(old(asked), old(hashes), f.path)
    {
      CallCounted(asked, again, hashes, f.path);
      again := again + Repeats(asked, hashes, f.path);
      asked := asked + {f.path};
      if f.path in hashes {
        return Some(hashes[f.path]);
      }
      h := hash(calls, f.path);
      ghost var before, n := hashes, calls;
      calls := calls + 1;
      assert HasAnswered(hash, calls, f.path, h);
      if h.Some? {
        hashes := hashes[f.path := h.value];
      }
      forall p | p in before
        ensures HasAnswered(hash, calls, p, Some(before[p]))
      {
        AnswerStays(hash, n, calls, p, Some(before[p]));
      }
    }
  }

  // ---- what the decisions cover ----------------------------------------------------------

  function ScannedOf(ds: seq<Decision>): seq<string>
  {
    if ds == [] then []
    else
      var last := ds[|ds| - 1];
      ScannedOf(ds[..|ds| - 1]) + if last.scanned.Some? then [last.scanned.value.path] else []
  }

  /** The vanished row a decision accounts for. */
  function SourceOf(d: Decision): Option<string>
  {
    if d.change == Moved && d.movedFrom.Some? then Some(d.movedFrom.value.path)
    else if (d.change == Deleted || d.change == Unseen) && d.prev.Some? then Some(d.prev.value.path)
    else None
  }

  function SourcesOf(ds: seq<Decision>): seq<string>
  {
    if ds == [] then []
    else
      var last := ds[|ds| - 1];
      SourcesOf(ds[..|ds| - 1]) + if SourceOf(last).Some? then [SourceOf(last).value] else []
  }

  function HowMany(ds: seq<Decision>, change: Change): nat
  {
    if ds == [] then 0 else HowMany(ds[..|ds| - 1], change) + if ds[|ds| - 1].change == change then 1 else 0
  }

  lemma OneMoreDecision(ds: seq<Decision>, d: Decision)
    ensures ScannedOf(ds + [d]) == ScannedOf(ds) + if d.scanned.Some? then [d.scanned.value.path] else []
    ensures SourcesOf(ds + [d]) == SourcesOf(ds) + if SourceOf(d).Some? then [SourceOf(d).value] else []
    ensures forall c :: HowMany(ds + [d], c) == HowMany(ds, c) + if d.change == c then 1 else 0
  {
    assert (ds + [d])[..|ds|] == ds;
  }

  /** Each listed once, and together exactly `all`. */
  ghost predicate ListsOnce(items: seq<string>, all: set<string>)
  {
    Distinct(items) && Elements(items) == all
  }

  lemma ListOneMore(items: seq<string>, all: set<string>, x: string)
    requires ListsOnce(items, all) && x !in all
    ensures ListsOnce(items + [x], all + {x})
  {
    assert x !in Elements(items);
    assert Elements(items + [x]) == Elements(items) + {x};
  }

  /** The counts say how many decisions of each kind there are. */
  ghost predicate CountsAgree(counts: Counts, ds: seq<Decision>)
  {
    && counts.created == HowMany(ds, New) && counts.changed == HowMany(ds, Changed)
    && counts.moved == HowMany(ds, Moved)
    && counts.same == HowMany(ds, Unchanged) + HowMany(ds, UnchangedRestat) + HowMany(ds, Moved)
    && counts.deleted == HowMany(ds, Deleted) && counts.unseen == HowMany(ds, Unseen)
  }

  function Counted(counts: Counts, change: Change): Counts
  {
    match change
    case New => counts.(created := counts.created + 1)
    case Changed => counts.(changed := counts.changed + 1)
    case Unchanged => counts.(same := counts.same + 1)
    case UnchangedRestat => counts.(same := counts.same + 1)
    case Moved => counts.(moved := counts.moved + 1, same := counts.same + 1)
    case Unseen => counts.(unseen := counts.unseen + 1)
    case Deleted => counts.(deleted := counts.deleted + 1)
  }

  lemma CountOneMore(counts: Counts, ds: seq<Decision>, d: Decision)
    requires CountsAgree(counts, ds)
    ensures CountsAgree(Counted(counts, d.change), ds + [d])
  {
  }

  /** Every scanned file's decision carries the hash that was found for it (none
      if none was); one that is unchanged by its stat is not hashed. */
  ghost predicate Told(ds: seq<Decision>, hashes: map<string, string>)
  {
    forall d :: d in ds && d.scanned.Some? && d.change != Unchanged ==>
      d.contentHash == Lookup(hashes, d.scanned.value.path)
  }

  lemma {:induction false} ScannedIsListed(ds: seq<Decision>, d: Decision)
    requires d in ds && d.scanned.Some?
    ensures d.scanned.value.path in ScannedOf(ds)
    decreases |ds|
  {
    if d != ds[|ds| - 1] {
      assert d in ds[..|ds| - 1];
      ScannedIsListed(ds[..|ds| - 1], d);
    }
  }

  lemma {:induction false} SourceIsListed(ds: seq<Decision>, path: string) returns (d: Decision)
    requires path in SourcesOf(ds)
    ensures d in ds && SourceOf(d) == Some(path)
    decreases |ds|
  {
    d := ds[|ds| - 1];
    if SourceOf(d) != Some(path) {
      d := SourceIsListed(ds[..|ds| - 1], path);
    }
  }

  lemma {:induction false} ListedIsScanned(ds: seq<Decision>, path: string) returns (d: Decision)
    requires path in ScannedOf(ds)
    ensures d in ds && d.scanned.Some? && d.scanned.value.path == path
    decreases |ds|
  {
    d := ds[|ds| - 1];
    if d.scanned.None? || d.scanned.value.path != path {
      d := ListedIsScanned(ds[..|ds| - 1], path);
    }
  }

  /** Hashing a file that has no decision yet changes nothing for the others. */
  lemma StillTold(ds: seq<Decision>, hashes: map<string, string>, more: map<string, string>, path: string)
    requires Told(ds, hashes) && path !in ScannedOf(ds)
    requires forall p :: p != path ==> Lookup(more, p) == Lookup(hashes, p)
    ensures Told(ds, more)
  {
  }

  lemma ToldOneMore(ds: seq<Decision>, hashes: map<string, string>, d: Decision)
    requires Told(ds, hashes)
    requires d.scanned.Some? && d.change != Unchanged ==> d.contentHash == Lookup(hashes, d.scanned.value.path)
    ensures Told(ds + [d], hashes)
  {
  }

  // ---- what each decision says ------------------------------------------------------------

  /** The vanished rows with hash `h`, in order. */
  function VanishedWith(scan: seq<ScannedFile>, baseline: seq<FileRow>, h: string): (r: seq<FileRow>)
    ensures forall row :: row in r <==> row in baseline && Vanished(scan, row) && row.contentHash == Some(h)
  {
    if baseline == [] then []
    else
      var last := baseline[|baseline| - 1];
      VanishedWith(scan, baseline[..|baseline| - 1], h) +
      if Vanished(scan, last) && last.contentHash == Some(h) then [last] else []
  }

  /** What one call compares: the scan, the baseline and the time, with the
      baseline by path and its vanished rows by hash. */
  datatype Inputs = Inputs(
    rules: Rules, scan: seq<ScannedFile>, complete: bool, baseline: seq<FileRow>, now: string,
    known: map<string, FileRow>, missing: string -> seq<FileRow>)
  {
    /** The two indexes are those of the baseline. */
    ghost predicate Indexed()
    {
      known == ByPath(baseline) && forall h :: missing(h) == VanishedWith(scan, baseline, h)
    }

    /** Paths are keys, and what `missing` lists are vanished rows of that hash. */
    ghost predicate Valid()
    {
      DistinctScan(scan) && DistinctRows(baseline) && forall h, r :: r in missing(h) ==> IsMissing(h, r)
    }

    ghost predicate IsMissing(h: string, r: FileRow)
    {
      r in baseline && Vanished(scan, r) && r.contentHash == Some(h)
    }

    predicate DueRetry(p: FileRow)
    {
      p.status == "retry" && Due(p, now)
    }
  }

  function InputsOf(
    rules: Rules, scan: seq<ScannedFile>, complete: bool, baseline: seq<FileRow>, now: string): Inputs
  {
    Inputs(rules, scan, complete, baseline, now, ByPath(baseline), (h: string) => VanishedWith(scan, baseline, h))
  }

  /** A move: a new path whose hash is that of exactly one vanished row, of the same kind. */
  ghost predicate IsMove(c: Inputs, d: Decision)
  {
    && d.change == Moved && d.scanned.Some? && d.movedFrom.Some? && d.contentHash.Some? && d.prev.None?
    && d.scanned.value in c.scan && d.path == d.scanned.value.path && d.path !in c.known
    && c.missing(d.contentHash.value) == [d.movedFrom.value]
    && d.kind == d.movedFrom.value.kind == c.rules.classify(d.path)
  }

  /** A vanished row that is not a move's source: deleted only by a complete scan. */
  ghost predicate IsGone(c: Inputs, d: Decision)
  {
    && d.change == (if c.complete then Deleted else Unseen)
    && d.scanned.None? && d.prev.Some? && d.prev.value in c.baseline && Vanished(c.scan, d.prev.value)
    && d.path == d.prev.value.path && d.contentHash == d.prev.value.contentHash && d.movedFrom.None?
    && d.kind == c.rules.parseKind(d.prev.value.kind)
  }

  /** A scanned file that is not a move's target. */
  ghost predicate IsClassified(c: Inputs, d: Decision)
  {
    && d.scanned.Some? && d.scanned.value in c.scan && d.path == d.scanned.value.path && d.movedFrom.None?
    && d.kind == c.rules.classify(d.path)
    && if d.path !in c.known then d.change == New && d.prev.None?
       else d.prev == Some(c.known[d.path]) && IsCompared(c, d, c.known[d.path])
  }

  /** A known file: unchanged by its stat, unchanged by its hash, or changed. */
  ghost predicate IsCompared(c: Inputs, d: Decision, p: FileRow)
    requires d.scanned.Some?
  {
    if RetryIsDue(p, c.now) then d.change == Changed
    else if c.rules.statUnchanged(p, d.scanned.value) && !c.rules.racy(p, d.scanned.value) then
      d.change == Unchanged && d.contentHash == p.contentHash
    else if d.contentHash.Some? && d.contentHash == p.contentHash then d.change == UnchangedRestat
    else d.change == Changed
  }

  ghost predicate IsRight(c: Inputs, d: Decision)
  {
    IsMove(c, d) || IsGone(c, d) || IsClassified(c, d)
  }

  // ---- the rename index -----------------------------------------------------------------------

  /** For every hash of a vanished row, those rows. */
  ghost predicate IndexesMissing(c: Inputs, n: nat, index: map<string, seq<FileRow>>)
    requires n <= |c.baseline|
  {
    forall h :: (h in index <==> VanishedWith(c.scan, c.baseline[..n], h) != []) &&
      (h in index ==> index[h] == VanishedWith(c.scan, c.baseline[..n], h))
  }

  /** The index with one more row. */
  function WithRow(index: map<string, seq<FileRow>>, h: string, r: FileRow): map<string, seq<FileRow>>
  {
    index[h := (if h in index then index[h] else []) + [r]]
  }

  lemma VanishedOneMoreRow(c: Inputs, n: nat, h: string)
    requires n < |c.baseline|
    ensures VanishedWith(c.scan, c.baseline[..n + 1], h) == VanishedWith(c.scan, c.baseline[..n], h) +
      if Vanished(c.scan, c.baseline[n]) && c.baseline[n].contentHash == Some(h) then [c.baseline[n]] else []
  {
    assert c.baseline[..n + 1][..n] == c.baseline[..n];
  }

  lemma IndexOneMore(c: Inputs, n: nat, index: map<string, seq<FileRow>>)
    requires n < |c.baseline| && IndexesMissing(c, n, index)
    ensures var r := c.baseline[n];
      IndexesMissing(c, n + 1,
                     if Vanished(c.scan, r) && r.contentHash.Some? then WithRow(index, r.contentHash.value, r)
                     else index)
  {
    forall h
      ensures VanishedWith(c.scan, c.baseline[..n + 1], h) == VanishedWith(c.scan, c.baseline[..n], h) +
        if Vanished(c.scan, c.baseline[n]) && c.baseline[n].contentHash == Some(h) then [c.baseline[n]] else []
    {
      VanishedOneMoreRow(c, n, h);
    }
  }

  method MissingByHash(c: Inputs) returns (index: map<string, seq<FileRow>>)
    requires c.Indexed()
    ensures forall h :: (h in index <==> c.missing(h) != []) && (h in index ==> index[h] == c.missing(h))
  {
    index := map[];
    var scannedPaths := Paths(c.scan);
    for n := 0 to |c.baseline|
      invariant IndexesMissing(c, n, index)
    {
      IndexOneMore(c, n, index);
      var r := c.baseline[n];
      if r.path !in scannedPaths && r.contentHash.Some? {
        index := WithRow(index, r.contentHash.value, r);
      }
    }
    assert c.baseline[..|c.baseline|] == c.baseline;
  }

  lemma IndexTellsRenames(c: Inputs, index: map<string, seq<FileRow>>)
    requires c.Indexed()
    requires forall h :: (h in index <==> c.missing(h) != []) && (h in index ==> index[h] == c.missing(h))
    ensures index != map[] <==> RenamesPossible(c.scan, c.baseline)
  {
    if RenamesPossible(c.scan, c.baseline) {
      var r :| r in c.baseline && r.contentHash.Some? && Vanished(c.scan, r);
      assert r in c.missing(r.contentHash.value);
      assert r.contentHash.value in index;
    }
    if h :| h in index {
      assert c.missing(h)[0] in c.missing(h);
    }
  }

  // ---- moves ----------------------------------------------------------------------------------

  /** The index while moves are taken: the one row of a hash is gone once it is a source. */
  ghost predicate IndexOk(c: Inputs, index: map<string, seq<FileRow>>, sources: seq<string>)
  {
    forall h :: h in index ==>
      c.missing(h) != [] &&
      index[h] == if |c.missing(h)| == 1 && c.missing(h)[0].path in sources then [] else c.missing(h)
  }

  ghost predicate MovesOk(c: Inputs, i: nat, ds: seq<Decision>)
    requires i <= |c.scan|
  {
    && (forall d :: d in ds ==> IsMove(c, d))
    && Distinct(ScannedOf(ds)) && Distinct(SourcesOf(ds))
    && (forall p :: p in ScannedOf(ds) ==> p in Paths(c.scan[..i]))
  }

  lemma PathsOneMore(c: Inputs, i: nat)
    requires i < |c.scan| && DistinctScan(c.scan)
    ensures Paths(c.scan[..i + 1]) == Paths(c.scan[..i]) + {c.scan[i].path}
    ensures c.scan[i].path !in Paths(c.scan[..i])
  {
    assert c.scan[..i + 1] == c.scan[..i] + [c.scan[i]];
  }

  lemma MoveOneMore(c: Inputs, i: nat, ds: seq<Decision>, d: Decision)
    requires c.Valid() && i < |c.scan| && MovesOk(c, i, ds) && IsMove(c, d)
    requires d.scanned.value == c.scan[i] && d.movedFrom.value.path !in SourcesOf(ds)
    ensures MovesOk(c, i + 1, ds + [d])
  {
    OneMoreDecision(ds, d);
    PathsOneMore(c, i);
  }

  lemma MissingIsAlone(c: Inputs, h: string, other: string, r: FileRow)
    requires c.Valid() && c.missing(h) == [r] && other != h && c.missing(other) != []
    ensures c.missing(other)[0].path != r.path
  {
    var o := c.missing(other)[0];
    assert o in c.missing(other) && r in c.missing(h);
    assert c.IsMissing(other, o) && c.IsMissing(h, r);
    var i :| 0 <= i < |c.baseline| && c.baseline[i] == o;
    var j :| 0 <= j < |c.baseline| && c.baseline[j] == r;
  }

  lemma IndexAfterMove(c: Inputs, index: map<string, seq<FileRow>>, sources: seq<string>, h: string, r: FileRow)
    requires c.Valid() && IndexOk(c, index, sources) && h in index && index[h] == [r]
    ensures c.missing(h) == [r] && r.path !in sources
    ensures IndexOk(c, index[h := []], sources + [r.path])
  {
    assert c.missing(h) == [r];
    forall k | k in index && k != h && |c.missing(k)| == 1
      ensures c.missing(k)[0].path in sources + [r.path] <==> c.missing(k)[0].path in sources
    {
      MissingIsAlone(c, h, k, r);
    }
  }

  /** The unknown paths among the first `i` scanned files. */
  function UnknownPaths(c: Inputs, i: nat): set<string>
    requires i <= |c.scan|
  {
    set f | f in c.scan[..i] && f.path !in c.known :: f.path
  }

  lemma UnknownOneMore(c: Inputs, i: nat)
    requires i < |c.scan|
    ensures UnknownPaths(c, i + 1)
      == UnknownPaths(c, i) + if c.scan[i].path !in c.known then {c.scan[i].path} else {}
  {
    assert c.scan[..i + 1] == c.scan[..i] + [c.scan[i]];
  }

  /** An earlier file of the scan was taken as the one that moved from `path`. */
  ghost predicate TakenBefore(c: Inputs, i: nat, ds: seq<Decision>, path: string)
    requires i <= |c.scan|
  {
    exists d :: d in ds && SourceOf(d) == Some(path) && d.path in Paths(c.scan[..i])
  }

  /** Why the scanned file `i` with the hash `h` is not a move: no hash, not
      exactly one vanished row with it, another kind, or an earlier file took it. */
  ghost predicate Unmovable(c: Inputs, i: nat, h: Option<string>, ds: seq<Decision>)
    requires i < |c.scan|
  {
    || h.None? || |c.missing(h.value)| != 1
    || c.missing(h.value)[0].kind != c.rules.classify(c.scan[i].path)
    || TakenBefore(c, i, ds, c.missing(h.value)[0].path)
  }

  ghost predicate IsTaken(ds: seq<Decision>, f: ScannedFile)
  {
    exists d :: d in ds && d.change == Moved && d.scanned == Some(f)
  }

  /** What the rename check found for a path the first time it was asked. */
  type FirstHashes = map<string, Option<string>>

  ghost predicate Considered(c: Inputs, i: nat, ds: seq<Decision>, first: FirstHashes)
    requires i < |c.scan|
  {
    c.scan[i].path !in c.known ==>
      IsTaken(ds, c.scan[i]) ||
      Unmovable(c, i, if c.scan[i].path in first then first[c.scan[i].path] else None, ds)
  }

  /** No move among the first `n` scanned files was missed. */
  ghost predicate MovesComplete(c: Inputs, n: nat, ds: seq<Decision>, first: FirstHashes)
    requires n <= |c.scan|
  {
    forall i :: 0 <= i < n ==> Considered(c, i, ds, first)
  }

  ghost predicate WereAsked(hash: (nat, string) -> Option<string>, calls: nat, first: FirstHashes)
  {
    forall p :: p in first ==> HasAnswered(hash, calls, p, first[p])
  }

  lemma StillConsidered(
    c: Inputs, i: nat, ds: seq<Decision>, more: seq<Decision>, first: FirstHashes, later: FirstHashes)
    requires i < |c.scan| && Considered(c, i, ds, first) && ds <= more
    requires c.scan[i].path in first ==> c.scan[i].path in later && later[c.scan[i].path] == first[c.scan[i].path]
    requires c.scan[i].path !in first ==> c.scan[i].path !in later
    ensures Considered(c, i, more, later)
  {
    assert forall d :: d in ds ==> d in more;
  }

  /** What became of the unknown file `i`, whose hash is `h`. */
  ghost predicate Tried(c: Inputs, i: nat, h: Option<string>, ds: seq<Decision>, more: seq<Decision>)
    requires i < |c.scan|
  {
    if more == ds then Unmovable(c, i, h, ds)
    else
      |more| == |ds| + 1 && more[..|ds|] == ds &&
      (var d := more[|ds|]; d.change == Moved && d.scanned == Some(c.scan[i]) && d.contentHash == h)
  }

  lemma CompleteOneMore(
    c: Inputs, i: nat, ds: seq<Decision>, more: seq<Decision>, first: FirstHashes, h: Option<string>)
    requires c.Valid() && i < |c.scan| && MovesComplete(c, i, ds, first) && Tried(c, i, h, ds, more)
    requires first.Keys == UnknownPaths(c, i) && c.scan[i].path !in c.known
    ensures MovesComplete(c, i + 1, more, first[c.scan[i].path := h])
  {
    PathsOneMore(c, i);
    assert c.scan[i].path !in first;
    var later := first[c.scan[i].path := h];
    forall j | 0 <= j < i
      ensures Considered(c, j, more, later)
    {
      StillConsidered(c, j, ds, more, first, later);
    }
    if more != ds {
      assert more[|ds|] in more;
    }
  }

  /** The decision that `f` is the vanished row `old`, moved. */
  function MoveOf(c: Inputs, f: ScannedFile, source: FileRow, h: string): Decision
  {
    Decision(Moved, f.path, c.rules.classify(f.path), Some(f), None, Some(source), Some(h))
  }

  /** Takes a scanned file as a move, if its hash is that of exactly one
      vanished row not taken yet and the kind is the same. */
  method TakeMove(c: Inputs, i: nat, h: Option<string>, index: map<string, seq<FileRow>>, ds: seq<Decision>)
    returns (more: seq<Decision>, left: map<string, seq<FileRow>>)
    requires c.Valid() && i < |c.scan| && c.scan[i].path !in c.known
    requires IndexOk(c, index, SourcesOf(ds)) && MovesOk(c, i, ds)
    ensures IndexOk(c, left, SourcesOf(more)) && MovesOk(c, i + 1, more) && left.Keys == index.Keys
    ensures more == ds || (|more| == |ds| + 1 && more[..|ds|] == ds && IsMove(c, more[|ds|]) &&
                           more[|ds|].scanned == Some(c.scan[i]) && more[|ds|].contentHash == h)
    ensures more == ds <==> !(h.Some? && h.value in index && |index[h.value]| == 1 &&
                              index[h.value][0].kind == c.rules.classify(c.scan[i].path))
  {
    var f := c.scan[i];
    more, left := ds, index;
    PathsOneMore(c, i);
    if h.None? || h.value !in index || |index[h.value]| != 1 {
      return;
    }
    var source := index[h.value][0];
    if source.kind != c.rules.classify(f.path) {
      return;
    }
    assert index[h.value] == [source];
    IndexAfterMove(c, index, SourcesOf(ds), h.value, source);
    var d := MoveOf(c, f, source, h.value);
    MoveOneMore(c, i, ds, d);
    OneMoreDecision(ds, d);
    more, left := ds + [d], index[h.value := []];
  }

  /** The moves found among the first `i` scanned files. */
  ghost predicate Found(c: Inputs, i: nat, ds: seq<Decision>, index: map<string, seq<FileRow>>, total: Counts)
    requires i <= |c.scan|
  {
    MovesOk(c, i, ds) && IndexOk(c, index, SourcesOf(ds)) && CountsAgree(total, ds)
  }

  lemma SkipKnown(c: Inputs, i: nat, ds: seq<Decision>, index: map<string, seq<FileRow>>, total: Counts)
    requires c.Valid() && i < |c.scan| && Found(c, i, ds, index, total)
    ensures Found(c, i + 1, ds, index, total)
  {
    PathsOneMore(c, i);
  }

  /** Every hash of a vanished row is in the index. */
  ghost predicate IndexComplete(c: Inputs, index: map<string, seq<FileRow>>)
  {
    forall h :: c.missing(h) != [] ==> h in index
  }

  lemma TakenByAnEarlier(c: Inputs, i: nat, ds: seq<Decision>, path: string)
    requires i <= |c.scan| && MovesOk(c, i, ds) && path in SourcesOf(ds)
    ensures TakenBefore(c, i, ds, path)
  {
    var d := SourceIsListed(ds, path);
    assert IsMove(c, d);
    ScannedIsListed(ds, d);
  }

  /** A file that is not taken as a move could not be. */
  lemma NotTaken(c: Inputs, i: nat, h: Option<string>, index: map<string, seq<FileRow>>, ds: seq<Decision>)
    requires c.Valid() && i < |c.scan| && MovesOk(c, i, ds)
    requires IndexOk(c, index, SourcesOf(ds)) && IndexComplete(c, index)
    requires !(h.Some? && h.value in index && |index[h.value]| == 1 &&
               index[h.value][0].kind == c.rules.classify(c.scan[i].path))
    ensures Unmovable(c, i, h, ds)
  {
    if h.Some? && |c.missing(h.value)| == 1 && c.missing(h.value)[0].path in SourcesOf(ds) {
      TakenByAnEarlier(c, i, ds, c.missing(h.value)[0].path);
    }
  }

  /** Looks at one unknown scanned file, whose hash is `h`. */
  method TryMove(
    c: Inputs, i: nat, h: Option<string>, index: map<string, seq<FileRow>>, ds: seq<Decision>, counts: Counts)
    returns (more: seq<Decision>, left: map<string, seq<FileRow>>, total: Counts)
    requires c.Valid() && i < |c.scan| && c.scan[i].path !in c.known && Found(c, i, ds, index, counts)
    requires IndexComplete(c, index)
    ensures Found(c, i + 1, more, left, total) && total.scanned == counts.scanned
    ensures IndexComplete(c, left) && Tried(c, i, h, ds, more)
  {
    more, left := TakeMove(c, i, h, index, ds);
    total := counts;
    if |more| > |ds| {
      CountOneMore(counts, ds, more[|ds|]);
      assert more == ds + [more[|ds|]];
      total := Counted(counts, Moved);
    } else {
      NotTaken(c, i, h, index, ds);
    }
  }

  /** What the rename check keeps: no move missed, each decision with its hash. */
  ghost predicate MovesTold(
    c: Inputs, i: nat, ds: seq<Decision>, first: FirstHashes, hash: (nat, string) -> Option<string>, calls: nat,
    hashes: map<string, string>)
    requires i <= |c.scan|
  {
    && MovesComplete(c, i, ds, first) && first.Keys == UnknownPaths(c, i)
    && WereAsked(hash, calls, first) && Told(ds, hashes)
  }

  lemma ToldSkipKnown(
    c: Inputs, i: nat, ds: seq<Decision>, first: FirstHashes, hash: (nat, string) -> Option<string>, calls: nat,
    hashes: map<string, string>)
    requires i < |c.scan| && c.scan[i].path in c.known && MovesTold(c, i, ds, first, hash, calls, hashes)
    ensures MovesTold(c, i + 1, ds, first, hash, calls, hashes)
  {
    UnknownOneMore(c, i);
  }

  lemma ToldOneMoreMove(
    c: Inputs, i: nat, ds: seq<Decision>, more: seq<Decision>, first: FirstHashes, h: Option<string>,
    hash: (nat, string) -> Option<string>, calls: nat, later: nat, hashes: map<string, string>,
    grown: map<string, string>)
    requires c.Valid() && i < |c.scan| && c.scan[i].path !in c.known
    requires MovesTold(c, i, ds, first, hash, calls, hashes) && Tried(c, i, h, ds, more) && MovesOk(c, i, ds)
    requires calls <= later && HasAnswered(hash, later, c.scan[i].path, h) && h == Lookup(grown, c.scan[i].path)
    requires forall p :: p != c.scan[i].path ==> Lookup(grown, p) == Lookup(hashes, p)
    ensures MovesTold(c, i + 1, more, first[c.scan[i].path := h], hash, later, grown)
  {
    var path := c.scan[i].path;
    UnknownOneMore(c, i);
    PathsOneMore(c, i);
    CompleteOneMore(c, i, ds, more, first, h);
    forall p | p in first
      ensures HasAnswered(hash, later, p, first[p])
    {
      AnswerStays(hash, calls, later, p, first[p]);
    }
    StillTold(ds, hashes, grown, path);
    if more != ds {
      ToldOneMore(ds, grown, more[|ds|]);
      assert more == ds + [more[|ds|]];
    }
  }

  lemma NewPath(c: Inputs, i: nat)
    requires c.Valid() && i < |c.scan|
    ensures c.scan[i].path !in UnknownPaths(c, i)
  {
    PathsOneMore(c, i);
  }

  /** What was found first for each file is what is remembered of it. */
  ghost predicate FirstRemembered(first: FirstHashes, hashes: map<string, string>)
  {
    forall p :: p in first ==> first[p] == Lookup(hashes, p)
  }

  /** Finds the moves in scan order. */
  method FindMoves(c: Inputs, index: map<string, seq<FileRow>>, hasher: Hasher, counts: Counts)
    returns (ds: seq<Decision>, total: Counts, ghost first: FirstHashes)
    requires c.Valid() && IndexOk(c, index, []) && IndexComplete(c, index) && CountsAgree(counts, [])
    requires hasher.Valid() && hasher.asked == {} && hasher.again == multiset{}
    modifies hasher
    ensures MovesOk(c, |c.scan|, ds) && CountsAgree(total, ds) && total.scanned == counts.scanned
    ensures hasher.Valid() && hasher.asked == UnknownPaths(c, |c.scan|) && hasher.again == multiset{}
    ensures FirstRemembered(first, hasher.hashes)
    ensures MovesTold(c, |c.scan|, ds, first, hasher.hash, hasher.calls, hasher.hashes)
  {
    ds, total, first := [], counts, map[];
    var left := index;
    for i := 0 to |c.scan|
      invariant Found(c, i, ds, left, total) && total.scanned == counts.scanned && IndexComplete(c, left)
      invariant hasher.Valid() && hasher.asked == UnknownPaths(c, i) && hasher.again == multiset{}
      invariant FirstRemembered(first, hasher.hashes)
      invariant MovesTold(c, i, ds, first, hasher.hash, hasher.calls, hasher.hashes)
    {
      UnknownOneMore(c, i);
      if c.scan[i].path in c.known {
        SkipKnown(c, i, ds, left, total);
        ToldSkipKnown(c, i, ds, first, hasher.hash, hasher.calls, hasher.hashes);
      } else {
        ghost var was, calls, hashes := ds, hasher.calls, hasher.hashes;
        NewPath(c, i);
        var h := hasher.HashOf(c.scan[i]);
        ds, left, total := TryMove(c, i, h, left, ds, total);
        ToldOneMoreMove(c, i, was, ds, first, h, hasher.hash, calls, hasher.calls, hashes, hasher.hashes);
        first := first[c.scan[i].path := h];
      }
    }
  }

  // ---- vanished rows ------------------------------------------------------------------------

  /** The paths of the vanished rows among the first `n`. */
  function VanishedPaths(c: Inputs, n: nat): set<string>
    requires n <= |c.baseline|
  {
    set r | r in c.baseline[..n] && Vanished(c.scan, r) :: r.path
  }

  lemma VanishedOneMore(c: Inputs, n: nat)
    requires n < |c.baseline| && DistinctRows(c.baseline)
    ensures VanishedPaths(c, n + 1)
      == VanishedPaths(c, n) + if Vanished(c.scan, c.baseline[n]) then {c.baseline[n].path} else {}
    ensures c.baseline[n].path !in VanishedPaths(c, n)
  {
    assert c.baseline[..n + 1] == c.baseline[..n] + [c.baseline[n]];
  }

  function GoneOf(c: Inputs, r: FileRow): Decision
  {
    Decision(if c.complete then Deleted else Unseen, r.path, c.rules.parseKind(r.kind), None, Some(r), None,
             r.contentHash)
  }

  /** What is listed when the first `n` baseline rows have been looked at. */
  ghost predicate Listed(
    c: Inputs, n: nat, ds: seq<Decision>, moves: seq<Decision>, consumed: set<string>, total: Counts)
    requires n <= |c.baseline|
  {
    && ListsOnce(SourcesOf(ds), consumed + VanishedPaths(c, n)) && ScannedOf(ds) == ScannedOf(moves)
    && CountsAgree(total, ds) && (forall d :: d in ds ==> IsRight(c, d))
    && moves <= ds && forall k :: |moves| <= k < |ds| ==> ds[k].scanned.None?
  }

  lemma ListNothing(c: Inputs, n: nat, ds: seq<Decision>, moves: seq<Decision>, consumed: set<string>, total: Counts)
    requires c.Valid() && n < |c.baseline| && Listed(c, n, ds, moves, consumed, total)
    requires !Vanished(c.scan, c.baseline[n]) || c.baseline[n].path in consumed
    ensures Listed(c, n + 1, ds, moves, consumed, total)
  {
    VanishedOneMore(c, n);
    assert consumed + VanishedPaths(c, n + 1) == consumed + VanishedPaths(c, n);
  }

  lemma ListRow(c: Inputs, n: nat, ds: seq<Decision>, moves: seq<Decision>, consumed: set<string>, total: Counts)
    requires c.Valid() && n < |c.baseline| && Listed(c, n, ds, moves, consumed, total)
    requires Vanished(c.scan, c.baseline[n]) && c.baseline[n].path !in consumed
    ensures var d := GoneOf(c, c.baseline[n]);
      Listed(c, n + 1, ds + [d], moves, consumed, Counted(total, d.change))
  {
    var d := GoneOf(c, c.baseline[n]);
    VanishedOneMore(c, n);
    OneMoreDecision(ds, d);
    CountOneMore(total, ds, d);
    ListOneMore(SourcesOf(ds), consumed + VanishedPaths(c, n), d.path);
    assert consumed + VanishedPaths(c, n + 1) == consumed + VanishedPaths(c, n) + {d.path};
    assert IsGone(c, d);
  }

  /** Every vanished row that is not a move's source is deleted, or kept if the scan was incomplete. */
  method ListGone(c: Inputs, moves: seq<Decision>, consumed: set<string>, counts: Counts)
    returns (ds: seq<Decision>, total: Counts)
    requires c.Valid() && CountsAgree(counts, moves) && forall d :: d in moves ==> IsRight(c, d)
    requires ListsOnce(SourcesOf(moves), consumed)
    ensures Listed(c, |c.baseline|, ds, moves, consumed, total) && total.scanned == counts.scanned
  {
    ds, total := moves, counts;
    var scannedPaths := Paths(c.scan);
    assert VanishedPaths(c, 0) == {};
    assert consumed + VanishedPaths(c, 0) == consumed;
    for n := 0 to |c.baseline|
      invariant Listed(c, n, ds, moves, consumed, total) && total.scanned == counts.scanned
    {
      var r := c.baseline[n];
      if r.path in scannedPaths || r.path in consumed {
        ListNothing(c, n, ds, moves, consumed, total);
      } else {
        ListRow(c, n, ds, moves, consumed, total);
        ds, total := ds + [GoneOf(c, r)], Counted(total, if c.complete then Deleted else Unseen);
      }
    }
  }

  // ---- the other scanned files ---------------------------------------------------------------

  /** Compares one known file with its row. */
  method Compare(c: Inputs, f: ScannedFile, p: FileRow, hasher: Hasher) returns (change: Change, h: Option<string>)
    requires f.path in c.known && c.known[f.path] == p && hasher.Valid()
    modifies hasher
    ensures hasher.Valid() && old(hasher.calls) <= hasher.calls
    ensures hasher.asked == old(hasher.asked) + if NeedsHash(c.rules, p, f, c.now) then {f.path} else {}
    ensures IsCompared(c, DecisionOf(c, f, change, Some(p), h), p)
    ensures change != Unchanged ==> h == Lookup(hasher.hashes, f.path)
    ensures forall q :: q != f.path ==> Lookup(hasher.hashes, q) == Lookup(old(hasher.hashes), q)
    ensures f.path !in old(hasher.asked) ==> hasher.again == old(hasher.again)
  {
    if c.DueRetry(p) {
      h := hasher.HashOf(f);
      change := Changed;
    } else if c.rules.statUnchanged(p, f) && !c.rules.racy(p, f) {
      change, h := Unchanged, p.contentHash;
    } else {
      h := hasher.HashOf(f);
      change := if h.Some? && h == p.contentHash then UnchangedRestat else Changed;
    }
  }

  function DecisionOf(c: Inputs, f: ScannedFile, change: Change, prev: Option<FileRow>, h: Option<string>): Decision
  {
    Decision(change, f.path, c.rules.classify(f.path), Some(f), prev, None, h)
  }

  /** Classifies one scanned file; it is hashed exactly when it is a candidate. */
  method Classify(c: Inputs, f: ScannedFile, renames: bool, hasher: Hasher) returns (d: Decision)
    requires f in c.scan && hasher.Valid() && (!renames ==> f.path !in hasher.asked)
    requires f.path in c.known ==> f.path !in hasher.asked
    modifies hasher
    ensures hasher.Valid() && old(hasher.calls) <= hasher.calls
    ensures IsClassified(c, d) && d.scanned == Some(f) && d.path == f.path
    ensures hasher.asked ==
            old(hasher.asked) + if IsCandidate(c.rules, c.known, renames, c.now, f) then {f.path} else {}
    ensures d.change != Unchanged ==> d.contentHash == Lookup(hasher.hashes, f.path)
    ensures forall q :: q != f.path ==> Lookup(hasher.hashes, q) == Lookup(old(hasher.hashes), q)
    ensures hasher.again == old(hasher.again) + Repeats(old(hasher.asked), old(hasher.hashes), f.path)
  {
    if f.path in c.known {
      var p := c.known[f.path];
      var change, h := Compare(c, f, p, hasher);
      d := DecisionOf(c, f, change, Some(p), h);
    } else {
      var h := None;
      if renames {
        h := hasher.HashOf(f);
      }
      d := DecisionOf(c, f, New, None, h);
    }
  }

  /** The paths hashed among the first `i` scanned files. */
  function CandidatePaths(c: Inputs, renames: bool, i: nat): set<string>
    requires i <= |c.scan|
  {
    set f | f in c.scan[..i] && IsCandidate(c.rules, c.known, renames, c.now, f) :: f.path
  }

  lemma CandidateOneMore(c: Inputs, renames: bool, i: nat)
    requires i < |c.scan|
    ensures CandidatePaths(c, renames, i + 1) == CandidatePaths(c, renames, i) +
      if IsCandidate(c.rules, c.known, renames, c.now, c.scan[i]) then {c.scan[i].path} else {}
  {
    assert c.scan[..i + 1] == c.scan[..i] + [c.scan[i]];
  }

  /** What is decided when the first `i` scanned files have been looked at. */
  ghost predicate Classified(
    c: Inputs, i: nat, ds: seq<Decision>, sources: seq<string>, targets: set<string>, total: Counts)
    requires i <= |c.scan|
  {
    && ListsOnce(ScannedOf(ds), targets + Paths(c.scan[..i])) && SourcesOf(ds) == sources
    && CountsAgree(total, ds) && forall d :: d in ds ==> IsRight(c, d)
  }

  lemma SkipTarget(
    c: Inputs, i: nat, ds: seq<Decision>, sources: seq<string>, targets: set<string>, total: Counts)
    requires c.Valid() && i < |c.scan| && Classified(c, i, ds, sources, targets, total)
    requires c.scan[i].path in targets
    ensures Classified(c, i + 1, ds, sources, targets, total)
  {
    PathsOneMore(c, i);
    assert targets + Paths(c.scan[..i + 1]) == targets + Paths(c.scan[..i]);
  }

  lemma AddClassified(
    c: Inputs, i: nat, ds: seq<Decision>, sources: seq<string>, targets: set<string>, total: Counts, d: Decision)
    requires c.Valid() && i < |c.scan| && Classified(c, i, ds, sources, targets, total)
    requires c.scan[i].path !in targets && IsClassified(c, d) && d.scanned == Some(c.scan[i])
    ensures Classified(c, i + 1, ds + [d], sources, targets, Counted(total, d.change))
  {
    PathsOneMore(c, i);
    OneMoreDecision(ds, d);
    CountOneMore(total, ds, d);
    ListOneMore(ScannedOf(ds), targets + Paths(c.scan[..i]), c.scan[i].path);
    assert targets + Paths(c.scan[..i + 1]) == targets + Paths(c.scan[..i]) + {c.scan[i].path};
  }

  lemma NotYetListed(
    c: Inputs, i: nat, ds: seq<Decision>, sources: seq<string>, targets: set<string>, total: Counts)
    requires c.Valid() && i < |c.scan| && Classified(c, i, ds, sources, targets, total)
    requires c.scan[i].path !in targets
    ensures c.scan[i].path !in ScannedOf(ds)
  {
    PathsOneMore(c, i);
    assert forall p :: p in ScannedOf(ds) <==> p in Elements(ScannedOf(ds));
  }

  /** Classifies the scanned file `i` and adds its decision. */
  method ClassifyOne(
    c: Inputs, i: nat, renames: bool, hasher: Hasher, ds: seq<Decision>, ghost sources: seq<string>,
    ghost targets: set<string>, counts: Counts) returns (more: seq<Decision>, total: Counts)
    requires c.Valid() && i < |c.scan| && Classified(c, i, ds, sources, targets, counts)
    requires c.scan[i].path !in targets && Told(ds, hasher.hashes)
    requires hasher.Valid() && (!renames ==> c.scan[i].path !in hasher.asked)
    requires c.scan[i].path in c.known ==> c.scan[i].path !in hasher.asked
    modifies hasher
    ensures Classified(c, i + 1, more, sources, targets, total) && total.scanned == counts.scanned
    ensures ds <= more && Told(more, hasher.hashes)
    ensures hasher.Valid() && old(hasher.calls) <= hasher.calls
    ensures hasher.asked == old(hasher.asked) +
      if IsCandidate(c.rules, c.known, renames, c.now, c.scan[i]) then {c.scan[i].path} else {}
    ensures forall q :: q != c.scan[i].path ==> Lookup(hasher.hashes, q) == Lookup(old(hasher.hashes), q)
    ensures hasher.again == old(hasher.again) + Repeats(old(hasher.asked), old(hasher.hashes), c.scan[i].path)
  {
    ghost var hashes := hasher.hashes;
    var d := Classify(c, c.scan[i], renames, hasher);
    NotYetListed(c, i, ds, sources, targets, counts);
    StillTold(ds, hashes, hasher.hashes, c.scan[i].path);
    ToldOneMore(ds, hasher.hashes, d);
    AddClassified(c, i, ds, sources, targets, counts, d);
    more, total := ds + [d], Counted(counts, d.change);
  }

  /** The hashed paths lie between the candidates so far and those asked before. */
  ghost predicate AskedSoFar(c: Inputs, renames: bool, i: nat, before: set<string>, asked: set<string>)
    requires i <= |c.scan|
  {
    before <= asked <= before + CandidatePaths(c, renames, i) && CandidatePaths(c, renames, i) <= asked
  }

  /** A file not looked at yet was asked about only if it was before. */
  lemma NotYetAsked(c: Inputs, renames: bool, i: nat, before: set<string>, asked: set<string>)
    requires c.Valid() && i < |c.scan| && AskedSoFar(c, renames, i, before, asked)
    ensures c.scan[i].path in asked <==> c.scan[i].path in before
  {
    PathsOneMore(c, i);
  }

  /** The files among the first `i` whose hash was asked for before and failed. */
  ghost function Repeated(c: Inputs, i: nat, targets: set<string>, before: set<string>, hashes: map<string, string>):
    set<string>
    requires i <= |c.scan|
  {
    set f | f in c.scan[..i] && f.path !in targets && f.path in before && f.path !in hashes :: f.path
  }

  lemma RepeatedOneMore(c: Inputs, i: nat, targets: set<string>, before: set<string>, hashes: map<string, string>)
    requires c.Valid() && i < |c.scan|
    ensures multiset(Repeated(c, i + 1, targets, before, hashes)) == multiset(Repeated(c, i, targets, before, hashes)) +
      if c.scan[i].path in targets then multiset{} else Repeats(before, hashes, c.scan[i].path)
  {
    var path := c.scan[i].path;
    PathsOneMore(c, i);
    assert c.scan[..i + 1] == c.scan[..i] + [c.scan[i]];
    var now, later := Repeated(c, i, targets, before, hashes), Repeated(c, i + 1, targets, before, hashes);
    assert later == if path !in targets && path in before && path !in hashes then now + {path} else now;
    assert path !in now;
  }

  /** What the hasher knew before the files were classified. */
  datatype Earlier = Earlier(asked: set<string>, hashes: map<string, string>)

  /** What the hasher did beyond its first calls: the files among the first `i`
      that had failed before were hashed again; the others are as they were. */
  ghost predicate HashedSoFar(
    c: Inputs, renames: bool, i: nat, targets: set<string>, e: Earlier, asked: set<string>, again: multiset<string>,
    hashes: map<string, string>)
    requires i <= |c.scan|
  {
    && AskedSoFar(c, renames, i, e.asked, asked)
    && again == multiset(Repeated(c, i, targets, e.asked, e.hashes))
    && forall q :: q !in Paths(c.scan[..i]) ==> Lookup(hashes, q) == Lookup(e.hashes, q)
  }

  lemma NothingHashed(c: Inputs, renames: bool, targets: set<string>, e: Earlier)
    ensures HashedSoFar(c, renames, 0, targets, e, e.asked, multiset{}, e.hashes)
  {
  }

  /** A file not looked at yet is as it was before. */
  lemma NotYetHashed(
    c: Inputs, renames: bool, i: nat, targets: set<string>, e: Earlier, asked: set<string>, again: multiset<string>,
    hashes: map<string, string>)
    requires c.Valid() && i < |c.scan| && HashedSoFar(c, renames, i, targets, e, asked, again, hashes)
    ensures c.scan[i].path in asked <==> c.scan[i].path in e.asked
    ensures Repeats(asked, hashes, c.scan[i].path) == Repeats(e.asked, e.hashes, c.scan[i].path)
  {
    PathsOneMore(c, i);
    NotYetAsked(c, renames, i, e.asked, asked);
    assert Lookup(hashes, c.scan[i].path) == Lookup(e.hashes, c.scan[i].path);
  }

  lemma TargetSkipped(
    c: Inputs, renames: bool, i: nat, targets: set<string>, e: Earlier, asked: set<string>, again: multiset<string>,
    hashes: map<string, string>)
    requires c.Valid() && i < |c.scan| && HashedSoFar(c, renames, i, targets, e, asked, again, hashes)
    requires c.scan[i].path in targets && c.scan[i].path in e.asked
    ensures HashedSoFar(c, renames, i + 1, targets, e, asked, again, hashes)
  {
    PathsOneMore(c, i);
    CandidateOneMore(c, renames, i);
    RepeatedOneMore(c, i, targets, e.asked, e.hashes);
  }

  lemma OneMoreHashed(
    c: Inputs, renames: bool, i: nat, targets: set<string>, e: Earlier, asked: set<string>, again: multiset<string>,
    hashes: map<string, string>, more: set<string>, grown: map<string, string>)
    requires c.Valid() && i < |c.scan| && HashedSoFar(c, renames, i, targets, e, asked, again, hashes)
    requires c.scan[i].path !in targets && forall q :: q != c.scan[i].path ==> Lookup(grown, q) == Lookup(hashes, q)
    requires more == asked + if IsCandidate(c.rules, c.known, renames, c.now, c.scan[i]) then {c.scan[i].path} else {}
    ensures HashedSoFar(c, renames, i + 1, targets, e, more, again + Repeats(e.asked, e.hashes, c.scan[i].path), grown)
  {
    PathsOneMore(c, i);
    CandidateOneMore(c, renames, i);
    RepeatedOneMore(c, i, targets, e.asked, e.hashes);
  }

  /** Classifies every scanned file that is not a move's target. */
  method ClassifyRest(
    c: Inputs, renames: bool, hasher: Hasher, start: seq<Decision>, targets: set<string>, counts: Counts,
    ghost e: Earlier) returns (ds: seq<Decision>, total: Counts)
    requires c.Valid() && Classified(c, 0, start, SourcesOf(start), targets, counts)
    requires hasher.Valid() && Told(start, hasher.hashes) && (!renames ==> hasher.asked == {})
    requires e == Earlier(hasher.asked, hasher.hashes) && hasher.again == multiset{}
    requires (forall p :: p in e.asked ==> p !in c.known) && targets <= e.asked
    modifies hasher
    ensures Classified(c, |c.scan|, ds, SourcesOf(start), targets, total) && total.scanned == counts.scanned
    ensures start <= ds && Told(ds, hasher.hashes)
    ensures hasher.Valid() && old(hasher.calls) <= hasher.calls
    ensures HashedSoFar(c, renames, |c.scan|, targets, e, hasher.asked, hasher.again, hasher.hashes)
  {
    ds, total := start, counts;
    NothingHashed(c, renames, targets, e);
    for i := 0 to |c.scan|
      invariant Classified(c, i, ds, SourcesOf(start), targets, total) && total.scanned == counts.scanned
      invariant start <= ds && Told(ds, hasher.hashes)
      invariant hasher.Valid() && old(hasher.calls) <= hasher.calls
      invariant HashedSoFar(c, renames, i, targets, e, hasher.asked, hasher.again, hasher.hashes)
    {
      ghost var asked, again, hashes := hasher.asked, hasher.again, hasher.hashes;
      if c.scan[i].path in targets {
        SkipTarget(c, i, ds, SourcesOf(start), targets, total);
        TargetSkipped(c, renames, i, targets, e, asked, again, hashes);
      } else {
        NotYetHashed(c, renames, i, targets, e, asked, again, hashes);
        ds, total := ClassifyOne(c, i, renames, hasher, ds, SourcesOf(start), targets, total);
        OneMoreHashed(c, renames, i, targets, e, asked, again, hashes, hasher.asked, hasher.hashes);
      }
    }
  }

  // ---- the whole comparison -------------------------------------------------------------------

  lemma InputsAreValid(
    rules: Rules, scan: seq<ScannedFile>, complete: bool, baseline: seq<FileRow>, now: string)
    requires DistinctScan(scan) && DistinctRows(baseline)
    ensures InputsOf(rules, scan, complete, baseline, now).Valid()
    ensures InputsOf(rules, scan, complete, baseline, now).Indexed()
  {
  }

  lemma CandidatesAreHashCandidates(c: Inputs)
    requires c.Indexed()
    ensures CandidatePaths(c, RenamesPossible(c.scan, c.baseline), |c.scan|)
      == Paths(HashCandidates(c.rules, c.scan, c.baseline, c.now))
  {
    assert c.scan[..|c.scan|] == c.scan;
  }

  lemma UnknownAreCandidates(c: Inputs)
    ensures UnknownPaths(c, |c.scan|) <= CandidatePaths(c, true, |c.scan|)
  {
  }

  /** Every scanned file once, every vanished row once, each decision right and
      counted. */
  ghost predicate IsPartition(c: Inputs, ds: seq<Decision>, counts: Counts)
  {
    && ListsOnce(ScannedOf(ds), Paths(c.scan))
    && ListsOnce(SourcesOf(ds), VanishedPaths(c, |c.baseline|))
    && (forall d :: d in ds ==> IsRight(c, d))
    && CountsAgree(counts, ds) && counts.scanned == |c.scan|
  }

  lemma MovesAreSound(c: Inputs, moves: seq<Decision>)
    requires c.Valid() && MovesOk(c, |c.scan|, moves)
    ensures Elements(ScannedOf(moves)) <= UnknownPaths(c, |c.scan|)
    ensures Elements(SourcesOf(moves)) <= VanishedPaths(c, |c.baseline|)
    decreases |moves|
  {
    assert c.scan[..|c.scan|] == c.scan && c.baseline[..|c.baseline|] == c.baseline;
    MoveSidesIn(c, moves);
  }

  lemma {:induction false} MoveSidesIn(c: Inputs, moves: seq<Decision>)
    requires c.Valid() && forall d :: d in moves ==> IsMove(c, d)
    ensures forall p :: p in ScannedOf(moves) ==> p in UnknownPaths(c, |c.scan|)
    ensures forall p :: p in SourcesOf(moves) ==> p in VanishedPaths(c, |c.baseline|)
    decreases |moves|
  {
    if moves != [] {
      var last := moves[|moves| - 1];
      MoveSidesIn(c, moves[..|moves| - 1]);
      assert IsMove(c, last) && last.movedFrom.value in c.missing(last.contentHash.value);
      assert c.IsMissing(last.contentHash.value, last.movedFrom.value);
      assert c.scan[..|c.scan|] == c.scan && c.baseline[..|c.baseline|] == c.baseline;
    }
  }

  /** The moves, if a vanished row has a hash at all. */
  method AllMoves(c: Inputs, hasher: Hasher)
    returns (ds: seq<Decision>, counts: Counts, renames: bool, ghost first: FirstHashes)
    requires c.Valid() && c.Indexed() && hasher.Valid() && hasher.asked == {} && hasher.again == multiset{}
    modifies hasher
    ensures MovesOk(c, |c.scan|, ds) && CountsAgree(counts, ds) && counts.scanned == |c.scan|
    ensures renames == RenamesPossible(c.scan, c.baseline) && (!renames ==> ds == [])
    ensures hasher.Valid() && hasher.asked == if renames then UnknownPaths(c, |c.scan|) else {}
    ensures hasher.again == multiset{} && first.Keys == hasher.asked && FirstRemembered(first, hasher.hashes)
    ensures MovesComplete(c, |c.scan|, ds, first) && WereAsked(hasher.hash, hasher.calls, first)
    ensures Told(ds, hasher.hashes)
  {
    var index := MissingByHash(c);
    IndexTellsRenames(c, index);
    renames := index != map[];
    ds, counts, first := [], Counts(|c.scan|, 0, 0, 0, 0, 0, 0), map[];
    if renames {
      ds, counts, first := FindMoves(c, index, hasher, counts);
    }
  }

  /** What is decided carries the hashes found, and no move was missed. */
  ghost predicate IsInformed(
    c: Inputs, ds: seq<Decision>, hash: (nat, string) -> Option<string>, calls: nat, hashes: map<string, string>,
    first: FirstHashes)
  {
    && Told(ds, hashes) && Genuine(hash, calls, hashes)
    && MovesComplete(c, |c.scan|, ds, first) && WereAsked(hash, calls, first)
  }

  lemma StillComplete(c: Inputs, moves: seq<Decision>, ds: seq<Decision>, first: FirstHashes)
    requires MovesComplete(c, |c.scan|, moves, first) && moves <= ds
    ensures MovesComplete(c, |c.scan|, ds, first)
  {
    forall i | 0 <= i < |c.scan|
      ensures Considered(c, i, ds, first)
    {
      StillConsidered(c, i, moves, ds, first, first);
    }
  }

  lemma StillAsked(hash: (nat, string) -> Option<string>, calls: nat, later: nat, first: FirstHashes)
    requires WereAsked(hash, calls, first) && calls <= later
    ensures WereAsked(hash, later, first)
  {
  }

  /** The new files whose first hash failed. */
  function FailedAtFirst(first: FirstHashes): set<string>
  {
    set p | p in first && first[p].None?
  }

  lemma RepeatedAreFailed(c: Inputs, moves: seq<Decision>, first: FirstHashes, hashes: map<string, string>)
    requires Told(moves, hashes) && (forall d :: d in moves ==> IsMove(c, d)) && FirstRemembered(first, hashes)
    requires forall p :: p in first ==> p in Paths(c.scan)
    ensures Repeated(c, |c.scan|, Elements(ScannedOf(moves)), first.Keys, hashes) == FailedAtFirst(first)
  {
    assert c.scan[..|c.scan|] == c.scan;
    forall p | p in ScannedOf(moves)
      ensures p in hashes
    {
      var d := ListedIsScanned(moves, p);
      assert d.contentHash == Lookup(hashes, p);
    }
  }

  lemma FailedAreRepeated(
    c: Inputs, moves: seq<Decision>, first: FirstHashes, hashes: map<string, string>, again: multiset<string>)
    requires Told(moves, hashes) && MovesOk(c, |c.scan|, moves) && FirstRemembered(first, hashes)
    requires first.Keys <= UnknownPaths(c, |c.scan|)
    requires again == multiset(Repeated(c, |c.scan|, Elements(ScannedOf(moves)), first.Keys, hashes))
    ensures |again| == |FailedAtFirst(first)|
  {
    RepeatedAreFailed(c, moves, first, hashes);
  }

  /** Compares a scan with its baseline. Each scanned file gets exactly one
      decision, each vanished row is accounted for by exactly one, the counts
      add up, and the files hashed are exactly the hash candidates. Every
      decision carries the hash its file was found to have, and a new file is
      a move unless its hash, its kind or an earlier file stand against it. The
      hash calls are one for each hashed file and a second one for each new file
      whose first hash failed when renames were possible. */
  method DiffScan(c: Inputs, hash: (nat, string) -> Option<string>)
    returns (ds: seq<Decision>, counts: Counts, hashCalls: nat, hashes: map<string, string>,
             ghost hashed: set<string>, ghost first: FirstHashes)
    requires c.Valid() && c.Indexed()
    ensures IsPartition(c, ds, counts)
    ensures hashed == Paths(HashCandidates(c.rules, c.scan, c.baseline, c.now)) && hashes.Keys <= hashed
    ensures IsInformed(c, ds, hash, hashCalls, hashes, first)
    ensures first.Keys == if RenamesPossible(c.scan, c.baseline) then UnknownPaths(c, |c.scan|) else {}
    ensures hashCalls == |hashed| + |FailedAtFirst(first)|
  {
    var hasher := new Hasher(hash);
    var moves, before, renames;
    moves, before, renames, first := AllMoves(c, hasher);
    ghost var calls, known := hasher.calls, hasher.hashes;
    MovesAreSound(c, moves);
    ds, counts := ListAndClassify(c, renames, hasher, moves, before);
    AllCandidatesHashed(c, renames, first.Keys, hasher.asked);
    StillComplete(c, moves, ds, first);
    StillAsked(hash, calls, hasher.calls, first);
    FailedAreRepeated(c, moves, first, known, hasher.again);
    hashCalls, hashes, hashed := hasher.calls, hasher.hashes, hasher.asked;
  }

  /** One new file, one vanished row: if every attempt to hash the file fails,
      it is the only one hashed and there are two hash calls. */
  method FailingFileIsHashedTwice(
    rules: Rules, f: ScannedFile, r: FileRow, complete: bool, now: string, hash: (nat, string) -> Option<string>)
    returns (ds: seq<Decision>, hashCalls: nat, ghost hashed: set<string>)
    requires f.path != r.path && r.contentHash.Some? && forall n: nat :: hash(n, f.path).None?
    ensures hashed == {f.path} && hashCalls == 2
  {
    var c := InputsOf(rules, [f], complete, [r], now);
    InputsAreValid(rules, [f], complete, [r], now);
    var counts, hashes;
    ghost var first;
    ds, counts, hashCalls, hashes, hashed, first := DiffScan(c, hash);
    OneNewFile(c, f, r);
    assert first.Keys == {f.path};
    assert HasAnswered(hash, hashCalls, f.path, first[f.path]);
    assert FailedAtFirst(first) == {f.path};
  }

  lemma OneNewFile(c: Inputs, f: ScannedFile, r: FileRow)
    requires c.Indexed() && c.scan == [f] && c.baseline == [r] && f.path != r.path && r.contentHash.Some?
    ensures RenamesPossible(c.scan, c.baseline) && UnknownPaths(c, 1) == {f.path}
    ensures Paths(HashCandidates(c.rules, c.scan, c.baseline, c.now)) == {f.path}
  {
    assert r in c.baseline && Vanished(c.scan, r);
    assert f in c.scan && c.scan[..1] == c.scan && c.baseline[..0] == [];
    assert f in HashCandidates(c.rules, c.scan, c.baseline, c.now);
  }

  lemma AllCandidatesHashed(c: Inputs, renames: bool, before: set<string>, asked: set<string>)
    requires c.Indexed() && renames == RenamesPossible(c.scan, c.baseline)
    requires before == if renames then UnknownPaths(c, |c.scan|) else {}
    requires asked == CandidatePaths(c, renames, |c.scan|) + before
    ensures asked == Paths(HashCandidates(c.rules, c.scan, c.baseline, c.now))
  {
    CandidatesAreHashCandidates(c);
    if renames { UnknownAreCandidates(c); }
  }

  lemma GoneAreTold(moves: seq<Decision>, ds: seq<Decision>, hashes: map<string, string>)
    requires Told(moves, hashes) && moves <= ds && forall k :: |moves| <= k < |ds| ==> ds[k].scanned.None?
    ensures Told(ds, hashes)
  {
  }

  /** Everything but the moves. */
  method ListAndClassify(c: Inputs, renames: bool, hasher: Hasher, moves: seq<Decision>, before: Counts)
    returns (ds: seq<Decision>, counts: Counts)
    requires c.Valid() && MovesOk(c, |c.scan|, moves) && CountsAgree(before, moves) && before.scanned == |c.scan|
    requires Elements(ScannedOf(moves)) <= UnknownPaths(c, |c.scan|)
    requires Elements(SourcesOf(moves)) <= VanishedPaths(c, |c.baseline|)
    requires hasher.Valid() && hasher.asked == if renames then UnknownPaths(c, |c.scan|) else {}
    requires hasher.again == multiset{} && (!renames ==> moves == [])
    requires Told(moves, hasher.hashes)
    modifies hasher
    ensures IsPartition(c, ds, counts) && moves <= ds && Told(ds, hasher.hashes)
    ensures hasher.Valid() && old(hasher.calls) <= hasher.calls
    ensures hasher.asked == CandidatePaths(c, renames, |c.scan|) + old(hasher.asked)
    ensures hasher.again ==
      multiset(Repeated(c, |c.scan|, Elements(ScannedOf(moves)), old(hasher.asked), old(hasher.hashes)))
  {
    var targets, consumed := Elements(ScannedOf(moves)), Elements(SourcesOf(moves));
    ghost var e := Earlier(hasher.asked, hasher.hashes);
    TargetsAreAsked(c, renames, moves, e.asked);
    ds, counts := ListGone(c, moves, consumed, before);
    GoneAreTold(moves, ds, hasher.hashes);
    ghost var listed := ds;
    NothingClassified(c, ds, moves, consumed, counts);
    ds, counts := ClassifyRest(c, renames, hasher, ds, targets, counts, e);
    AllHashed(c, renames, targets, e, hasher.asked, hasher.again, hasher.hashes);
    AllClassified(c, listed, moves, ds, counts);
  }

  lemma TargetsAreAsked(c: Inputs, renames: bool, moves: seq<Decision>, asked: set<string>)
    requires asked == (if renames then UnknownPaths(c, |c.scan|) else {}) && (!renames ==> moves == [])
    requires Elements(ScannedOf(moves)) <= UnknownPaths(c, |c.scan|)
    ensures Elements(ScannedOf(moves)) <= asked && forall p :: p in asked ==> p !in c.known
  {
  }

  lemma NothingClassified(
    c: Inputs, listed: seq<Decision>, moves: seq<Decision>, consumed: set<string>, counts: Counts)
    requires c.Valid() && MovesOk(c, |c.scan|, moves)
    requires Listed(c, |c.baseline|, listed, moves, consumed, counts)
    ensures Classified(c, 0, listed, SourcesOf(listed), Elements(ScannedOf(moves)), counts)
  {
    var targets := Elements(ScannedOf(moves));
    assert Paths(c.scan[..0]) == {} && targets + Paths(c.scan[..0]) == targets;
  }

  lemma AllClassified(c: Inputs, listed: seq<Decision>, moves: seq<Decision>, ds: seq<Decision>, counts: Counts)
    requires c.Valid() && counts.scanned == |c.scan| && Elements(ScannedOf(moves)) <= UnknownPaths(c, |c.scan|)
    requires ListsOnce(SourcesOf(listed), Elements(SourcesOf(moves)) + VanishedPaths(c, |c.baseline|))
    requires Elements(SourcesOf(moves)) <= VanishedPaths(c, |c.baseline|)
    requires Classified(c, |c.scan|, ds, SourcesOf(listed), Elements(ScannedOf(moves)), counts)
    ensures IsPartition(c, ds, counts)
  {
    var targets, consumed := Elements(ScannedOf(moves)), Elements(SourcesOf(moves));
    assert c.scan[..|c.scan|] == c.scan;
    assert targets + Paths(c.scan) == Paths(c.scan);
    assert consumed + VanishedPaths(c, |c.baseline|) == VanishedPaths(c, |c.baseline|);
  }

  lemma AllHashed(
    c: Inputs, renames: bool, targets: set<string>, e: Earlier, asked: set<string>, again: multiset<string>,
    hashes: map<string, string>)
    requires HashedSoFar(c, renames, |c.scan|, targets, e, asked, again, hashes)
    ensures asked == CandidatePaths(c, renames, |c.scan|) + e.asked
    ensures again == multiset(Repeated(c, |c.scan|, targets, e.asked, e.hashes))
  {
  }

  // ---- what the counts add up to ----------------------------------------------------------------

  lemma {:induction false} ListedAreCounted(c: Inputs, ds: seq<Decision>)
    requires forall d :: d in ds ==> IsRight(c, d)
    ensures |ScannedOf(ds)| == HowMany(ds, New) + HowMany(ds, Changed) + HowMany(ds, Unchanged) +
                               HowMany(ds, UnchangedRestat) + HowMany(ds, Moved)
    ensures |SourcesOf(ds)| == HowMany(ds, Moved) + HowMany(ds, Deleted) + HowMany(ds, Unseen)
    decreases |ds|
  {
    if ds != [] {
      var front, last := ds[..|ds| - 1], ds[|ds| - 1];
      ListedAreCounted(c, front);
      assert IsRight(c, last);
    }
  }

  lemma {:induction false} PathsOfScan(scan: seq<ScannedFile>)
    requires DistinctScan(scan)
    ensures |Paths(scan)| == |scan|
    decreases |scan|
  {
    if scan != [] {
      var front, last := scan[..|scan| - 1], scan[|scan| - 1];
      PathsOfScan(front);
      assert scan == front + [last];
      assert Paths(scan) == Paths(front) + {last.path};
    } else {
      assert Paths(scan) == {};
    }
  }

  /** Every scanned file is new, changed or unchanged (moves count as
      unchanged), every vanished row is moved, deleted or kept; an incomplete
      scan deletes nothing and a complete one keeps nothing unseen. */
  lemma CountsAddUp(c: Inputs, ds: seq<Decision>, counts: Counts)
    requires c.Valid() && IsPartition(c, ds, counts)
    ensures counts.scanned == counts.created + counts.changed + counts.same
    ensures |VanishedPaths(c, |c.baseline|)| == counts.moved + counts.deleted + counts.unseen
    ensures if c.complete then counts.unseen == 0 else counts.deleted == 0
  {
    ListedAreCounted(c, ds);
    DistinctCardinality(ScannedOf(ds));
    DistinctCardinality(SourcesOf(ds));
    PathsOfScan(c.scan);
    NoneOf(c, ds, if c.complete then Unseen else Deleted);
  }

  lemma {:induction false} NoneOf(c: Inputs, ds: seq<Decision>, change: Change)
    requires forall d :: d in ds ==> IsRight(c, d)
    requires change == if c.complete then Unseen else Deleted
    ensures HowMany(ds, change) == 0
    decreases |ds|
  {
    if ds != [] {
      NoneOf(c, ds[..|ds| - 1], change);
      assert IsRight(c, ds[|ds| - 1]);
    }
  }
}
