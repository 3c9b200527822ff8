/** Cross-file reference resolution: the naive specification and the
    whole-build and per-file procedures that must agree with it. */
module Resolution {
  import opened Wrappers
  import opened Sorting

  type FileId = string
  type EntityId = string
  type RowId = string

  datatype Entity = Entity(id: EntityId, file: FileId, name: string, qualifiedName: string, line: int)

  datatype Confidence = Exact | High | Medium | Heuristic

  datatype Resolver =
    | Structural
    | SameFileQualified
    | SameFileName
    | SameFileNameAmbiguous
    | Framework
    | Pending
    | CrossFileQualified
    | CrossFileQualifiedAmbiguous
    | NameOnly
    | Unresolved
  {
    /** The resolvers whose outcome depends on other files. */
    predicate CrossFile()
    {
      Pending? || CrossFileQualified? || CrossFileQualifiedAmbiguous? || NameOnly? || Unresolved?
    }
  }

  datatype Target = Target(entity: Option<EntityId>, symbol: string, confidence: Confidence, resolver: Resolver)

  /** One relationship row, as far as resolution reads and rewrites it. */
  datatype Row = Row(
    file: FileId,
    reference: Option<string>,
    targetEntity: Option<EntityId>,
    targetSymbol: Option<string>,
    resolver: Resolver,
    confidence: Confidence)
  {
    predicate IsCrossFileReference()
    {
      reference.Some? && resolver.CrossFile()
    }

    /** The row once its resolution is `t` (an unresolved reference keeps its symbol). */
    function WithTarget(t: Target): Row
    {
      this.(targetEntity := t.entity,
            targetSymbol := if t.entity.None? then Some(t.symbol) else None,
            resolver := t.resolver,
            confidence := t.confidence)
    }
  }

  /** The part of `text` after its last dot. */
  function Bare(text: string): string
  {
    if text == [] || text[|text| - 1] == '.' then []
    else Bare(text[..|text| - 1]) + [text[|text| - 1]]
  }

  // ---- candidate orders ---------------------------------------------------

  predicate FileLineLe(a: Entity, b: Entity)
  {
    StrLe(a.file, b.file) && (a.file == b.file ==> a.line <= b.line)
  }

  predicate NameFileLe(a: Entity, b: Entity)
  {
    StrLe(a.qualifiedName, b.qualifiedName) && (a.qualifiedName == b.qualifiedName ==> StrLe(a.file, b.file))
  }

  /** `ORDER BY file_id, start_line, id`. */
  predicate QualifiedOrder(a: Entity, b: Entity)
  {
    FileLineLe(a, b) && (a.file == b.file && a.line == b.line ==> StrLe(a.id, b.id))
  }

  /** `ORDER BY qualified_name, file_id, start_line, id`. */
  predicate NameOrder(a: Entity, b: Entity)
  {
    NameFileLe(a, b) && (a.qualifiedName == b.qualifiedName && a.file == b.file ==>
      a.line <= b.line && (a.line == b.line ==> StrLe(a.id, b.id)))
  }

  lemma OrdersAreTotal()
    ensures TotalPreorder(FileLineLe)
    ensures TotalPreorder(NameFileLe)
    ensures TotalPreorder(QualifiedOrder)
    ensures TotalPreorder(NameOrder)
  {
    forall a: string, b: string
      ensures StrLe(a, b) || StrLe(b, a)
      ensures StrLe(a, b) && StrLe(b, a) ==> a == b
    {
      StrLeTotal(a, b);
      if StrLe(a, b) && StrLe(b, a) { StrLeAntisymmetric(a, b); }
    }
    forall a: string, b: string, c: string | StrLe(a, b) && StrLe(b, c)
      ensures StrLe(a, c)
    {
      StrLeTransitive(a, b, c);
    }
  }

  lemma OrdersAgree(a: Entity, b: Entity)
    ensures QualifiedOrder(a, b) && QualifiedOrder(b, a) ==> a.id == b.id
    ensures NameOrder(a, b) && NameOrder(b, a) ==> a.id == b.id
    ensures Lex(NameFileLe, QualifiedOrder, a, b) ==> NameOrder(a, b)
    ensures Lex(FileLineLe, QualifiedOrder, a, b) ==> QualifiedOrder(a, b)
  {
    StrLeTotal(a.file, b.file);
    StrLeTotal(a.qualifiedName, b.qualifiedName);
    forall x: string, y: string | StrLe(x, y) && StrLe(y, x)
      ensures x == y
    {
      StrLeAntisymmetric(x, y);
    }
    StrLeTotal(a.file, a.file);
    StrLeTotal(a.qualifiedName, a.qualifiedName);
  }

  // ---- the naive specification ---------------------------------------------

  /** Every definition outside `file` whose qualified name is `text`. */
  ghost function QualifiedCandidates(text: string, file: FileId, entities: set<Entity>): set<Entity>
  {
    set e | e in entities && e.file != file && e.qualifiedName == text
  }

  /** Every definition outside `file` whose bare name is that of `text`. */
  ghost function NameCandidates(text: string, file: FileId, entities: set<Entity>): set<Entity>
  {
    set e | e in entities && e.file != file && e.name == Bare(text)
  }

  /** The first of the definitions with the full name, labelled ambiguous unless it is the only one. */
  ghost predicate IsQualifiedTarget(text: string, qualified: set<Entity>, t: Target)
  {
    exists e :: IsLeast(QualifiedOrder, e, qualified) &&
      t == Target(Some(e.id), text, High,
                  if |qualified| == 1 then CrossFileQualified else CrossFileQualifiedAmbiguous)
  }

  /** The first of the definitions with the bare name, or nothing. */
  ghost predicate IsNameTarget(bare: string, named: set<Entity>, t: Target)
  {
    if named == {} then t == Target(None, bare, Medium, Unresolved)
    else exists e :: IsLeast(NameOrder, e, named) && t == Target(Some(e.id), bare, Medium, NameOnly)
  }

  /** What a cross-file reference `text` of `file` must resolve to. */
  ghost predicate IsNaiveTarget(text: string, file: FileId, entities: set<Entity>, t: Target)
  {
    if QualifiedCandidates(text, file, entities) != {} then
      IsQualifiedTarget(text, QualifiedCandidates(text, file, entities), t)
    else
      IsNameTarget(Bare(text), NameCandidates(text, file, entities), t)
  }

  lemma NaiveTargetUnique(text: string, file: FileId, entities: set<Entity>, t: Target, u: Target)
    requires IsNaiveTarget(text, file, entities, t)
    requires IsNaiveTarget(text, file, entities, u)
    ensures t == u
  {
    var qualified := QualifiedCandidates(text, file, entities);
    var named := NameCandidates(text, file, entities);
    if qualified != {} {
      var d :| IsLeast(QualifiedOrder, d, qualified) && t.entity == Some(d.id);
      var e :| IsLeast(QualifiedOrder, e, qualified) && u.entity == Some(e.id);
      OrdersAgree(d, e);
    } else if named != {} {
      var d :| IsLeast(NameOrder, d, named) && t.entity == Some(d.id);
      var e :| IsLeast(NameOrder, e, named) && u.entity == Some(e.id);
      OrdersAgree(d, e);
    }
  }

  lemma NaiveTargetExists(text: string, file: FileId, entities: set<Entity>)
    ensures exists t :: IsNaiveTarget(text, file, entities, t)
  {
    OrdersAreTotal();
    var qualified := QualifiedCandidates(text, file, entities);
    var named := NameCandidates(text, file, entities);
    var t: Target;
    if qualified != {} {
      LeastExists(QualifiedOrder, qualified);
      var e :| IsLeast(QualifiedOrder, e, qualified);
      t := Target(Some(e.id), text, High,
                  if |qualified| == 1 then CrossFileQualified else CrossFileQualifiedAmbiguous);
    } else if named != {} {
      LeastExists(NameOrder, named);
      var e :| IsLeast(NameOrder, e, named);
      t := Target(Some(e.id), Bare(text), Medium, NameOnly);
    } else {
      t := Target(None, Bare(text), Medium, Unresolved);
    }
    assert IsNaiveTarget(text, file, entities, t);
  }

  ghost function NaiveTarget(text: string, file: FileId, entities: set<Entity>): (t: Target)
    ensures IsNaiveTarget(text, file, entities, t)
  {
    NaiveTargetExists(text, file, entities);
    var t :| IsNaiveTarget(text, file, entities, t);
    t
  }

  /** The row as a from-scratch resolution against `entities` leaves it. */
  ghost function ResolvedRow(r: Row, entities: set<Entity>): Row
  {
    if r.IsCrossFileReference() then r.WithTarget(NaiveTarget(r.reference.value, r.file, entities)) else r
  }

  // ---- the resolver --------------------------------------------------------

  /** Cross-file stage over candidates that exclude the referencing file. */
  function ResolveCrossFile(text: string, byQualified: seq<Entity>, byName: seq<Entity>): Target
  {
    var qualified := StableSort(FileLineLe, byQualified);
    if |qualified| > 0 then
      Target(Some(qualified[0].id), text, High,
             if |qualified| == 1 then CrossFileQualified else CrossFileQualifiedAmbiguous)
    else
      var named := StableSort(NameFileLe, byName);
      if |named| > 0 then Target(Some(named[0].id), Bare(text), Medium, NameOnly)
      else Target(None, Bare(text), Medium, Unresolved)
  }

  function OutsideOf(file: FileId, s: seq<Entity>): (r: seq<Entity>)
    ensures forall e :: e in r <==> e in s && e.file != file
  {
    if s == [] then []
    else if s[0].file != file then [s[0]] + OutsideOf(file, s[1..])
    else OutsideOf(file, s[1..])
  }

  function Take<T>(s: seq<T>, n: nat): seq<T>
  {
    if |s| <= n then s else s[..n]
  }

  lemma {:induction false} OutsideKeepsOrder(le: (Entity, Entity) -> bool, file: FileId, s: seq<Entity>)
    requires Ordered(le, s)
    requires Distinct(s)
    ensures Ordered(le, OutsideOf(file, s))
    ensures Distinct(OutsideOf(file, s))
  {
    if s != [] {
      OutsideKeepsOrder(le, file, s[1..]);
      var r := OutsideOf(file, s[1..]);
      forall i | 0 <= i < |r|
        ensures le(s[0], r[i]) && s[0] != r[i]
      {
        assert r[i] in r;
        var k :| 0 <= k < |s[1..]| && s[1..][k] == r[i];
        assert s[1..][k] == s[k + 1];
      }
    }
  }

  /** A name's candidates as a lookup returns them: all of them, once each, in resolution order. */
  ghost predicate IsQualifiedLookup(text: string, entities: set<Entity>, found: seq<Entity>)
  {
    && Ordered(QualifiedOrder, found) && Distinct(found)
    && forall e :: e in found <==> e in entities && e.qualifiedName == text
  }

  ghost predicate IsNameLookup(name: string, entities: set<Entity>, found: seq<Entity>)
  {
    && Ordered(NameOrder, found) && Distinct(found)
    && forall e :: e in found <==> e in entities && e.name == name
  }

  lemma PrefixesResolve(text: string, q: seq<Entity>, n: seq<Entity>)
    requires Ordered(QualifiedOrder, q) && Ordered(NameOrder, n)
    ensures ResolveCrossFile(text, Take(q, 2), Take(n, 1)) ==
      if |q| > 0 then
        Target(Some(q[0].id), text, High, if |q| == 1 then CrossFileQualified else CrossFileQualifiedAmbiguous)
      else if |n| > 0 then Target(Some(n[0].id), Bare(text), Medium, NameOnly)
      else Target(None, Bare(text), Medium, Unresolved)
  {
    assert Ordered(FileLineLe, Take(q, 2));
    assert Ordered(NameFileLe, Take(n, 1));
    SortedPrefixUnmoved(FileLineLe, Take(q, 2));
    SortedPrefixUnmoved(NameFileLe, Take(n, 1));
  }

  lemma FirstIsLeast(le: (Entity, Entity) -> bool, s: seq<Entity>)
    requires TotalPreorder(le)
    requires Ordered(le, s) && |s| > 0
    ensures IsLeast(le, s[0], Elements(s))
  {
    assert le(s[0], s[0]);
  }

  /** Keeping only the first two qualified candidates and the first bare-name
      candidate outside the file loses nothing. */
  lemma TruncatedLookupsResolveNaively(
    text: string, file: FileId, entities: set<Entity>, qualified: seq<Entity>, named: seq<Entity>)
    requires IsQualifiedLookup(text, entities, qualified)
    requires IsNameLookup(Bare(text), entities, named)
    ensures ResolveCrossFile(text, Take(OutsideOf(file, qualified), 2), Take(OutsideOf(file, named), 1))
         == NaiveTarget(text, file, entities)
  {
    var q := OutsideOf(file, qualified);
    var n := OutsideOf(file, named);
    OutsideKeepsOrder(QualifiedOrder, file, qualified);
    OutsideKeepsOrder(NameOrder, file, named);
    PrefixesResolve(text, q, n);
    var t := ResolveCrossFile(text, Take(q, 2), Take(n, 1));
    assert IsNaiveTarget(text, file, entities, t) by {
      OrdersAreTotal();
      assert Elements(q) == QualifiedCandidates(text, file, entities);
      assert Elements(n) == NameCandidates(text, file, entities);
      DistinctCardinality(q);
      if |q| > 0 {
        FirstIsLeast(QualifiedOrder, q);
      } else if |n| > 0 {
        FirstIsLeast(NameOrder, n);
      }
    }
    NaiveTargetUnique(text, file, entities, t, NaiveTarget(text, file, entities));
  }

  // ---- whole-build resolution ----------------------------------------------

  /** `outcomes` rewrites exactly what a from-scratch resolution of `rows` would change. */
  ghost predicate AreNaiveOutcomes(
    outcomes: map<RowId, Row>, refs: map<RowId, Row>, entities: set<Entity>)
  {
    && (forall id :: id in outcomes ==> id in refs)
    && (forall id :: id in refs ==>
          ResolvedRow(refs[id], entities) == if id in outcomes then outcomes[id] else refs[id])
  }

  /** `UPDATE` of the rows with an outcome. */
  function ApplyResolutions(rows: map<RowId, Row>, outcomes: map<RowId, Row>): map<RowId, Row>
  {
    map id | id in rows :: if id in outcomes then outcomes[id] else rows[id]
  }

  function Lookup(table: map<string, seq<Entity>>, key: string): seq<Entity>
  {
    if key in table then table[key] else []
  }

  /** The elements of `all` under key `k`, in the order they were listed. */
  ghost predicate IsGroup(all: seq<Entity>, key: Entity -> string, k: string, group: seq<Entity>)
  {
    && Distinct(group) && Ordered(QualifiedOrder, group)
    && forall e :: e in group <==> e in all && key(e) == k
  }

  ghost predicate IsGrouping(all: seq<Entity>, key: Entity -> string, groups: map<string, seq<Entity>>)
  {
    forall k :: IsGroup(all, key, k, Lookup(groups, k))
  }

  lemma GroupGrows(all: seq<Entity>, i: nat, key: Entity -> string, group: seq<Entity>)
    requires Distinct(all) && Ordered(QualifiedOrder, all) && i < |all|
    requires IsGroup(all[..i], key, key(all[i]), group)
    ensures IsGroup(all[..i + 1], key, key(all[i]), group + [all[i]])
  {
    var e := all[i];
    assert all[..i + 1] == all[..i] + [e];
    forall j | 0 <= j < |group|
      ensures QualifiedOrder(group[j], e) && group[j] != e
    {
      assert group[j] in group;
      var m :| 0 <= m < i && all[m] == group[j];
    }
  }

  method GroupBy(all: seq<Entity>, key: Entity -> string) returns (groups: map<string, seq<Entity>>)
    requires Distinct(all) && Ordered(QualifiedOrder, all)
    ensures IsGrouping(all, key, groups)
  {
    groups := map[];
    for i := 0 to |all|
      invariant IsGrouping(all[..i], key, groups)
    {
      var k := key(all[i]);
      ghost var before := groups;
      GroupGrows(all, i, key, Lookup(groups, k));
      groups := groups[k := Lookup(groups, k) + [all[i]]];
      forall other
        ensures IsGroup(all[..i + 1], key, other, Lookup(groups, other))
      {
        if other != k {
          assert IsGroup(all[..i], key, other, Lookup(before, other));
          assert all[..i + 1] == all[..i] + [all[i]];
        }
      }
    }
    assert all[..|all|] == all;
  }

  /** Re-sorts every group in place. */
  method SortGroups(groups: map<string, seq<Entity>>, le: (Entity, Entity) -> bool)
    returns (sorted: map<string, seq<Entity>>)
    ensures sorted.Keys == groups.Keys
    ensures forall k :: k in groups ==> sorted[k] == StableSort(le, groups[k])
  {
    sorted := map[];
    var todo := groups.Keys;
    while todo != {}
      invariant todo <= groups.Keys
      invariant sorted.Keys == groups.Keys - todo
      invariant forall k :: k in sorted ==> sorted[k] == StableSort(le, groups[k])
    {
      var k :| k in todo;
      sorted := sorted[k := StableSort(le, groups[k])];
      todo := todo - {k};
    }
  }

  lemma DistinctSorted(le: (Entity, Entity) -> bool, s: seq<Entity>)
    requires Distinct(s)
    ensures Distinct(StableSort(le, s))
  {
    var r := StableSort(le, s);
    SameElements(r, s);
    forall i, j | 0 <= i < j < |r|
      ensures r[i] != r[j]
    {
      if r[i] == r[j] {
        assert r == r[..i] + [r[i]] + r[i + 1..j] + [r[j]] + r[j + 1..];
        assert multiset(r)[r[i]] >= 2;
        DistinctCounts(s, r[i]);
      }
    }
  }

  lemma {:induction false} DistinctCounts<T>(s: seq<T>, x: T)
    requires Distinct(s)
    ensures multiset(s)[x] <= 1
    decreases |s|
  {
    if s != [] {
      DistinctCounts(s[1..], x);
      assert s == [s[0]] + s[1..];
      assert s[0] !in s[1..];
    }
  }

  /** Every name's entry of the tables is that name's candidates in resolution order. */
  ghost predicate AreLookupTables(
    byQualified: map<string, seq<Entity>>, byName: map<string, seq<Entity>>, entities: set<Entity>)
  {
    forall text ::
      && IsQualifiedLookup(text, entities, Lookup(byQualified, text))
      && IsNameLookup(text, entities, Lookup(byName, text))
  }

  lemma SortedQualified(raw: seq<Entity>)
    requires Distinct(raw) && Ordered(QualifiedOrder, raw)
    ensures var r := StableSort(FileLineLe, raw);
      Distinct(r) && Ordered(QualifiedOrder, r) && forall e :: e in r <==> e in raw
  {
    OrdersAreTotal();
    var r := StableSort(FileLineLe, raw);
    SortIsStable(FileLineLe, QualifiedOrder, raw);
    SameElements(r, raw);
    DistinctSorted(FileLineLe, raw);
    forall i, j | 0 <= i < j < |r|
      ensures QualifiedOrder(r[i], r[j])
    {
      OrdersAgree(r[i], r[j]);
    }
  }

  lemma SortedNamed(raw: seq<Entity>)
    requires Distinct(raw) && Ordered(QualifiedOrder, raw)
    ensures var r := StableSort(NameFileLe, raw);
      Distinct(r) && Ordered(NameOrder, r) && forall e :: e in r <==> e in raw
  {
    OrdersAreTotal();
    var r := StableSort(NameFileLe, raw);
    SortIsStable(NameFileLe, QualifiedOrder, raw);
    SameElements(r, raw);
    DistinctSorted(NameFileLe, raw);
    forall i, j | 0 <= i < j < |r|
      ensures NameOrder(r[i], r[j])
    {
      OrdersAgree(r[i], r[j]);
    }
  }

  lemma SortedGroupsAreLookups(
    all: seq<Entity>, rawQualified: map<string, seq<Entity>>, rawName: map<string, seq<Entity>>,
    byQualified: map<string, seq<Entity>>, byName: map<string, seq<Entity>>, text: string)
    requires IsGrouping(all, (e: Entity) => e.qualifiedName, rawQualified)
    requires IsGrouping(all, (e: Entity) => e.name, rawName)
    requires byQualified.Keys == rawQualified.Keys && byName.Keys == rawName.Keys
    requires text in rawQualified ==> byQualified[text] == StableSort(FileLineLe, rawQualified[text])
    requires text in rawName ==> byName[text] == StableSort(NameFileLe, rawName[text])
    ensures IsQualifiedLookup(text, Elements(all), Lookup(byQualified, text))
    ensures IsNameLookup(text, Elements(all), Lookup(byName, text))
  {
    assert IsGroup(all, (e: Entity) => e.qualifiedName, text, Lookup(rawQualified, text));
    assert IsGroup(all, (e: Entity) => e.name, text, Lookup(rawName, text));
    if text in rawQualified {
      SortedQualified(rawQualified[text]);
    }
    if text in rawName {
      SortedNamed(rawName[text]);
    }
  }

  /** Presorts every candidate once, in resolution order. */
  method PresortedTables(all: seq<Entity>)
    returns (byQualified: map<string, seq<Entity>>, byName: map<string, seq<Entity>>)
    requires Ordered(QualifiedOrder, all) && Distinct(all)
    ensures AreLookupTables(byQualified, byName, Elements(all))
  {
    var rawQualified := GroupBy(all, (e: Entity) => e.qualifiedName);
    var rawName := GroupBy(all, (e: Entity) => e.name);
    byQualified := SortGroups(rawQualified, FileLineLe);
    byName := SortGroups(rawName, NameFileLe);
    forall text
      ensures IsQualifiedLookup(text, Elements(all), Lookup(byQualified, text))
      ensures IsNameLookup(text, Elements(all), Lookup(byName, text))
    {
      SortedGroupsAreLookups(all, rawQualified, rawName, byQualified, byName, text);
    }
  }

  /** One reference looked up in the tables. */
  function ResolveThrough(
    r: Row, byQualified: map<string, seq<Entity>>, byName: map<string, seq<Entity>>): Target
    requires r.reference.Some?
  {
    var text := r.reference.value;
    ResolveCrossFile(text,
      Take(OutsideOf(r.file, Lookup(byQualified, text)), 2),
      Take(OutsideOf(r.file, Lookup(byName, Bare(text))), 1))
  }

  /** Re-resolves every cross-file reference of the build. `all` lists its
      entities in storage order, `refs` its cross-file references. */
  method ResolveBuild(all: seq<Entity>, refs: map<RowId, Row>) returns (outcomes: map<RowId, Row>)
    requires Ordered(QualifiedOrder, all) && Distinct(all)
    requires forall id :: id in refs ==> refs[id].IsCrossFileReference()
    ensures AreNaiveOutcomes(outcomes, refs, Elements(all))
  {
    var byQualified, byName := PresortedTables(all);
    outcomes := map[];
    var todo := refs.Keys;
    while todo != {}
      invariant todo <= refs.Keys
      invariant outcomes.Keys <= refs.Keys - todo
      invariant forall id :: id in refs && id !in todo ==>
        ResolvedRow(refs[id], Elements(all)) == if id in outcomes then outcomes[id] else refs[id]
    {
      var id :| id in todo;
      var r := refs[id];
      var text := r.reference.value;
      var t := ResolveThrough(r, byQualified, byName);
      assert t == NaiveTarget(text, r.file, Elements(all)) by {
        assert IsQualifiedLookup(text, Elements(all), Lookup(byQualified, text));
        assert IsNameLookup(Bare(text), Elements(all), Lookup(byName, Bare(text)));
        TruncatedLookupsResolveNaively(
          text, r.file, Elements(all), Lookup(byQualified, text), Lookup(byName, Bare(text)));
      }
      if r.WithTarget(t) != r {
        outcomes := outcomes[id := r.WithTarget(t)];
      }
      todo := todo - {id};
    }
  }

  // ---- per-file resolution --------------------------------------------------

  /** Files whose references are read per statement. */
  const RESOLVE_BATCH: nat := 500

  /** Every cached entry answers its name completely. */
  ghost predicate AreCachedLookups(
    byQualified: map<string, seq<Entity>>, byName: map<string, seq<Entity>>, entities: set<Entity>)
  {
    && (forall k :: k in byQualified ==> IsQualifiedLookup(k, entities, byQualified[k]))
    && (forall k :: k in byName ==> IsNameLookup(k, entities, byName[k]))
  }

  /** The store's lookup by qualified name: every requested name gets an entry. */
  method EntitiesByQualifiedNames(all: seq<Entity>, names: set<string>) returns (found: map<string, seq<Entity>>)
    requires Ordered(QualifiedOrder, all) && Distinct(all)
    ensures found.Keys == names
    ensures forall k :: k in found ==> IsQualifiedLookup(k, Elements(all), found[k])
  {
    var groups := GroupBy(all, (e: Entity) => e.qualifiedName);
    found := map k | k in names :: Lookup(groups, k);
    forall k | k in names
      ensures IsQualifiedLookup(k, Elements(all), found[k])
    {
      assert IsGroup(all, (e: Entity) => e.qualifiedName, k, Lookup(groups, k));
    }
  }

  /** The store's lookup by bare name. */
  method EntitiesByBareNames(all: seq<Entity>, names: set<string>) returns (found: map<string, seq<Entity>>)
    requires Ordered(QualifiedOrder, all) && Distinct(all)
    ensures found.Keys == names
    ensures forall k :: k in found ==> IsNameLookup(k, Elements(all), found[k])
  {
    var groups := GroupBy(all, (e: Entity) => e.name);
    found := map k | k in names :: StableSort(NameFileLe, Lookup(groups, k));
    forall k | k in names
      ensures IsNameLookup(k, Elements(all), found[k])
    {
      assert IsGroup(all, (e: Entity) => e.name, k, Lookup(groups, k));
      SortedNamed(Lookup(groups, k));
    }
  }

  /** The references recorded by `files`. */
  function ReferencesOf(refs: map<RowId, Row>, files: set<FileId>): map<RowId, Row>
  {
    map id | id in refs && refs[id].file in files :: refs[id]
  }

  /** The caches hold both names the cross-file reference `r` looks up. */
  ghost predicate NamesCached(r: Row, byQualified: map<string, seq<Entity>>, byName: map<string, seq<Entity>>)
  {
    r.IsCrossFileReference() && r.reference.value in byQualified && Bare(r.reference.value) in byName
  }

  /** Resolves `refs` through cached lookups that already hold every name they use. */
  method ResolveBatch(
    refs: map<RowId, Row>, byQualified: map<string, seq<Entity>>, byName: map<string, seq<Entity>>,
    ghost entities: set<Entity>)
    returns (outcomes: map<RowId, Row>)
    requires forall id :: id in refs ==> NamesCached(refs[id], byQualified, byName)
    requires AreCachedLookups(byQualified, byName, entities)
    ensures AreNaiveOutcomes(outcomes, refs, entities)
  {
    outcomes := map[];
    var todo := refs.Keys;
    while todo != {}
      invariant todo <= refs.Keys
      invariant outcomes.Keys <= refs.Keys - todo
      invariant forall id :: id in refs && id !in todo ==>
        ResolvedRow(refs[id], entities) == if id in outcomes then outcomes[id] else refs[id]
    {
      var id :| id in todo;
      var r := refs[id];
      var text := r.reference.value;
      var t := ResolveThrough(r, byQualified, byName);
      TruncatedLookupsResolveNaively(
        text, r.file, entities, Lookup(byQualified, text), Lookup(byName, Bare(text)));
      if r.WithTarget(t) != r {
        outcomes := outcomes[id := r.WithTarget(t)];
      }
      todo := todo - {id};
    }
  }

  /** Extends the caches by the names `batch` needs and they lack. */
  method ExtendCaches(
    all: seq<Entity>, batch: map<RowId, Row>,
    byQualified: map<string, seq<Entity>>, byName: map<string, seq<Entity>>)
    returns (byQualified': map<string, seq<Entity>>, byName': map<string, seq<Entity>>)
    requires Ordered(QualifiedOrder, all) && Distinct(all)
    requires forall id :: id in batch ==> batch[id].IsCrossFileReference()
    requires AreCachedLookups(byQualified, byName, Elements(all))
    ensures AreCachedLookups(byQualified', byName', Elements(all))
    ensures forall id :: id in batch ==> NamesCached(batch[id], byQualified', byName')
  {
    var qualifiedNames := set id | id in batch && batch[id].reference.value !in byQualified
      :: batch[id].reference.value;
    var bareNames := set id | id in batch && Bare(batch[id].reference.value) !in byName
      :: Bare(batch[id].reference.value);
    var foundQualified := EntitiesByQualifiedNames(all, qualifiedNames);
    var foundNames := EntitiesByBareNames(all, bareNames);
    byQualified' := byQualified + foundQualified;
    byName' := byName + foundNames;
  }

  /** Re-resolves only the references recorded by `files`, looking candidates
      up by symbol, in bounded batches with a cache of earlier lookups. */
  method ResolveFiles(all: seq<Entity>, refs: map<RowId, Row>, files: seq<FileId>)
    returns (outcomes: map<RowId, Row>)
    requires Ordered(QualifiedOrder, all) && Distinct(all)
    requires forall id :: id in refs ==> refs[id].IsCrossFileReference()
    ensures AreNaiveOutcomes(outcomes, ReferencesOf(refs, Elements(files)), Elements(all))
  {
    var byQualified: map<string, seq<Entity>>, byName: map<string, seq<Entity>> := map[], map[];
    outcomes := map[];
    var done := 0;
    while done < |files|
      invariant 0 <= done <= |files|
      invariant AreCachedLookups(byQualified, byName, Elements(all))
      invariant AreNaiveOutcomes(outcomes, ReferencesOf(refs, Elements(files[..done])), Elements(all))
    {
      var next := if done + RESOLVE_BATCH < |files| then done + RESOLVE_BATCH else |files|;
      var batch := ReferencesOf(refs, Elements(files[done..next]));
      byQualified, byName := ExtendCaches(all, batch, byQualified, byName);
      var resolved := ResolveBatch(batch, byQualified, byName, Elements(all));
      BatchesJoin(refs, files, done, next);
      OutcomesUnion(outcomes, ReferencesOf(refs, Elements(files[..done])), resolved, batch, Elements(all));
      outcomes := outcomes + resolved;
      done := next;
    }
    assert files[..|files|] == files;
  }

  lemma BatchesJoin(refs: map<RowId, Row>, files: seq<FileId>, done: nat, next: nat)
    requires done <= next <= |files|
    ensures ReferencesOf(refs, Elements(files[..next])) ==
      ReferencesOf(refs, Elements(files[..done])) + ReferencesOf(refs, Elements(files[done..next]))
  {
    assert files[..next] == files[..done] + files[done..next];
    assert Elements(files[..next]) == Elements(files[..done]) + Elements(files[done..next]);
  }

  lemma OutcomesUnion(
    o1: map<RowId, Row>, r1: map<RowId, Row>, o2: map<RowId, Row>, r2: map<RowId, Row>, entities: set<Entity>)
    requires AreNaiveOutcomes(o1, r1, entities) && AreNaiveOutcomes(o2, r2, entities)
    requires forall id :: id in r1 && id in r2 ==> r1[id] == r2[id]
    ensures AreNaiveOutcomes(o1 + o2, r1 + r2, entities)
  {
  }

  /** Applied outcomes leave every examined row resolved from scratch and every other row alone. */
  lemma AppliedOutcomes(rows: map<RowId, Row>, refs: map<RowId, Row>, outcomes: map<RowId, Row>, entities: set<Entity>)
    requires AreNaiveOutcomes(outcomes, refs, entities)
    requires forall id :: id in refs ==> id in rows && rows[id] == refs[id]
    ensures var after := ApplyResolutions(rows, outcomes);
      after.Keys == rows.Keys &&
      (forall id :: id in rows && id in refs ==> after[id] == ResolvedRow(rows[id], entities)) &&
      (forall id :: id in rows && id !in refs ==> after[id] == rows[id])
  {
  }

  // ---- what names and orders mean ----------------------------------------------------------

  /** A bare name is what follows the last dot, or the whole name when it has none. */
  lemma {:induction false} BareIsLastPart(text: string)
    ensures '.' !in Bare(text)
    ensures text == Bare(text) || exists p :: text == p + "." + Bare(text)
    decreases |text|
  {
    if text != [] {
      var last := |text| - 1;
      assert text == text[..last] + [text[last]];
      if text[last] == '.' {
        assert text == text[..last] + "." + Bare(text);
      } else {
        BareIsLastPart(text[..last]);
        if text[..last] != Bare(text[..last]) {
          var p :| text[..last] == p + "." + Bare(text[..last]);
          assert text == p + "." + Bare(text);
        }
      }
    }
  }

  lemma {:induction false} BareOfDotted(p: string, n: string)
    requires '.' !in n
    ensures Bare(n) == n && Bare(p + "." + n) == n
    decreases |n|
  {
    var text := p + "." + n;
    if n != [] {
      var last := |n| - 1;
      assert n == n[..last] + [n[last]];
      assert text[..|text| - 1] == p + "." + n[..last];
      assert n[last] in n;
      BareOfDotted(p, n[..last]);
    }
  }

  /** `a` is a prefix of `b`, or smaller at the first place they differ. */
  lemma {:induction false} StrLeIff(a: string, b: string)
    ensures StrLe(a, b) <==> a <= b || exists k :: 0 <= k < |a| && k < |b| && a[..k] == b[..k] && a[k] < b[k]
    decreases |a|
  {
    if a != [] && b != [] {
      assert a == [a[0]] + a[1..] && b == [b[0]] + b[1..];
      StrLeIff(a[1..], b[1..]);
      if a[0] == b[0] {
        if k :| 0 <= k < |a[1..]| && k < |b[1..]| && a[1..][..k] == b[1..][..k] && a[1..][k] < b[1..][k] {
          assert a[..k + 1] == [a[0]] + a[1..][..k] && b[..k + 1] == [b[0]] + b[1..][..k];
        }
        if k :| 0 <= k < |a| && k < |b| && a[..k] == b[..k] && a[k] < b[k] {
          assert a[1..][..k - 1] == a[..k][1..] && b[1..][..k - 1] == b[..k][1..];
          assert a[1..][k - 1] < b[1..][k - 1];
        }
      } else if a[0] < b[0] {
        assert a[..0] == b[..0];
      }
    }
  }

  /** Candidates of a full name come by file, line and id; those of a bare name
      by qualified name first. */
  lemma OrdersMean(a: Entity, b: Entity)
    ensures QualifiedOrder(a, b) <==>
      if a.file != b.file then StrLe(a.file, b.file)
      else if a.line != b.line then a.line < b.line
      else StrLe(a.id, b.id)
    ensures NameOrder(a, b) <==>
      if a.qualifiedName != b.qualifiedName then StrLe(a.qualifiedName, b.qualifiedName) else QualifiedOrder(a, b)
  {
    StrLeTotal(a.file, a.file);
    StrLeTotal(a.qualifiedName, a.qualifiedName);
  }

  // ---- what becomes of one reference --------------------------------------------------------

  /** The resolvers of rows that an own file settled or that do not name a reference. */
  const SETTLED: set<Resolver> := {Structural, SameFileQualified, SameFileName, SameFileNameAmbiguous, Framework}

  /** The row `id` once the outcomes are applied. */
  function RowAfter(outcomes: map<RowId, Row>, refs: map<RowId, Row>, id: RowId): Row
    requires id in refs
  {
    if id in outcomes then outcomes[id] else refs[id]
  }

  /** Two rows of one file and one reference. */
  ghost predicate SameReference(a: Row, b: Row)
  {
    a.file == b.file && a.reference == b.reference
  }

  /** A row that its own file settled, or without a reference, stays as it is. */
  lemma SettledRowStays(
    outcomes: map<RowId, Row>, refs: map<RowId, Row>, entities: set<Entity>, id: RowId)
    requires AreNaiveOutcomes(outcomes, refs, entities) && id in refs
    requires refs[id].resolver in SETTLED || refs[id].reference == None
    ensures RowAfter(outcomes, refs, id) == refs[id]
  {
  }

  /** No other entity outside `file` has the qualified name of `e`. */
  ghost predicate IsOnlyOutside(entities: set<Entity>, file: FileId, e: Entity)
  {
    forall d :: d in entities && d.file != file && d.qualifiedName == e.qualifiedName ==> d == e
  }

  /** A reference by the qualified name of an entity elsewhere ends at the first
      such entity by file, line and id, with high confidence, as ambiguous
      unless it is the only one. */
  lemma QualifiedReference(
    outcomes: map<RowId, Row>, refs: map<RowId, Row>, entities: set<Entity>, id: RowId, e: Entity)
    requires AreNaiveOutcomes(outcomes, refs, entities) && id in refs
    requires refs[id].resolver !in SETTLED && refs[id].reference == Some(e.qualifiedName)
    requires e in entities && e.file != refs[id].file
    requires forall d :: d in entities && d.file != refs[id].file && d.qualifiedName == e.qualifiedName ==>
      QualifiedOrder(e, d)
    ensures var after := RowAfter(outcomes, refs, id);
      && SameReference(after, refs[id])
      && after.targetEntity == Some(e.id) && after.targetSymbol == None && after.confidence == High
      && after.resolver == (if IsOnlyOutside(entities, refs[id].file, e) then CrossFileQualified
                            else CrossFileQualifiedAmbiguous)
  {
    var text := e.qualifiedName;
    var qualified := QualifiedCandidates(text, refs[id].file, entities);
    assert IsLeast(QualifiedOrder, e, qualified);
    var t := Target(Some(e.id), text, High,
                    if |qualified| == 1 then CrossFileQualified else CrossFileQualifiedAmbiguous);
    NaiveTargetUnique(text, refs[id].file, entities, NaiveTarget(text, refs[id].file, entities), t);
    OnlyOne(qualified, e);
    assert IsOnlyOutside(entities, refs[id].file, e) <==> forall d :: d in qualified ==> d == e;
  }

  lemma OnlyOne<T>(s: set<T>, e: T)
    requires e in s
    ensures |s| == 1 <==> forall d :: d in s ==> d == e
  {
    assert |s - {e}| == |s| - 1;
    if |s| == 1 {
      assert s - {e} == {};
    } else {
      var d :| d in s - {e};
    }
  }

  /** A reference, dotted or not, whose full name nothing elsewhere has ends at
      the first entity elsewhere that has its last part as name, with medium confidence. */
  lemma NameReference(
    outcomes: map<RowId, Row>, refs: map<RowId, Row>, entities: set<Entity>, id: RowId, p: string, e: Entity)
    requires AreNaiveOutcomes(outcomes, refs, entities) && id in refs
    requires refs[id].resolver !in SETTLED && '.' !in e.name
    requires refs[id].reference == Some(p + "." + e.name) || refs[id].reference == Some(e.name)
    requires e in entities && e.file != refs[id].file
    requires forall d :: d in entities && d.file != refs[id].file ==> refs[id].reference != Some(d.qualifiedName)
    requires forall d :: d in entities && d.file != refs[id].file && d.name == e.name ==> NameOrder(e, d)
    ensures var after := RowAfter(outcomes, refs, id);
      && SameReference(after, refs[id])
      && after.targetEntity == Some(e.id) && after.targetSymbol == None
      && after.confidence == Medium && after.resolver == NameOnly
  {
    var text, file := refs[id].reference.value, refs[id].file;
    BareOfDotted(p, e.name);
    assert QualifiedCandidates(text, file, entities) == {};
    assert IsLeast(NameOrder, e, NameCandidates(text, file, entities));
    var t := Target(Some(e.id), e.name, Medium, NameOnly);
    NaiveTargetUnique(text, file, entities, NaiveTarget(text, file, entities), t);
  }

  /** A reference that nothing elsewhere matches is left unresolved under its last part. */
  lemma UnmatchedReference(
    outcomes: map<RowId, Row>, refs: map<RowId, Row>, entities: set<Entity>, id: RowId, p: string, n: string)
    requires AreNaiveOutcomes(outcomes, refs, entities) && id in refs
    requires refs[id].resolver !in SETTLED && '.' !in n
    requires refs[id].reference == Some(p + "." + n) || refs[id].reference == Some(n)
    requires forall d :: d in entities && d.file != refs[id].file ==>
      refs[id].reference != Some(d.qualifiedName) && d.name != n
    ensures var after := RowAfter(outcomes, refs, id);
      && SameReference(after, refs[id])
      && after.targetEntity == None && after.targetSymbol == Some(n)
      && after.confidence == Medium && after.resolver == Unresolved
  {
    var text, file := refs[id].reference.value, refs[id].file;
    BareOfDotted(p, n);
    assert QualifiedCandidates(text, file, entities) == {};
    assert NameCandidates(text, file, entities) == {};
  }
}
