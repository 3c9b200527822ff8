/** What the relationship graph is derived from: extraction as a given
    function of a file and its semantic key, snapshots of a base build, the
    graph derived from scratch, and the symbol fingerprints of a file. */
module GraphInputs {
  import opened Wrappers
  import opened Sorting
  import opened Resolution

  type Key = string

  /** The files of a base build with their semantic keys (kind, status, content hash). */
  type Snapshot = map<FileId, Key>

  /** What parsing yields for a file with a given key: its entities in the base
      index and its underived relationship rows (references left pending); `isCode` tells the keys of
      indexed code files. */
  datatype Extractor = Extractor(
    entities: (FileId, Key) -> seq<Entity>,
    isCode: Key -> bool,
    rows: (FileId, Key) -> map<RowId, Row>)
  {
    ghost predicate EntitiesAreIdentified()
    {
      && (forall f, k, e :: e in entities(f, k) ==> e.file == f)
      && (forall f, k, i, j :: 0 <= i < j < |entities(f, k)| ==> entities(f, k)[i].id != entities(f, k)[j].id)
      && (forall f, k, g, l, d, e :: d in entities(f, k) && e in entities(g, l) && d.id == e.id ==>
            d.file == e.file && d.qualifiedName == e.qualifiedName)
    }

    ghost predicate RowsAreIdentified()
    {
      && (forall f, k, id :: id in rows(f, k) ==> isCode(k) && rows(f, k)[id].file == f)
      && (forall f, k, g, l, id :: id in rows(f, k) && id in rows(g, l) ==> f == g)
    }

    /** Identifiers are injective: an entity id fixes its file and qualified
        name, a row id fixes its file. Only indexed code files have rows. */
    ghost predicate Valid()
    {
      EntitiesAreIdentified() && RowsAreIdentified()
    }
  }

  ghost function EntitiesOf(x: Extractor, s: Snapshot): set<Entity>
  {
    set f, e | f in s && e in x.entities(f, s[f]) :: e
  }

  ghost function DerivedRows(x: Extractor, s: Snapshot): (r: map<RowId, Row>)
    requires x.Valid()
    ensures forall f, id :: f in s && id in x.rows(f, s[f]) ==> id in r && r[id] == x.rows(f, s[f])[id]
    ensures forall id :: id in r ==> r[id].file in s && id in x.rows(r[id].file, s[r[id].file])
  {
    map f, id | f in s && id in x.rows(f, s[f]) :: id := x.rows(f, s[f])[id]
  }

  /** The graph of `s` derived from scratch: every reference resolved
      naively against every entity of the snapshot. */
  ghost function FullGraph(x: Extractor, s: Snapshot): (r: map<RowId, Row>)
    requires x.Valid()
    ensures r.Keys == DerivedRows(x, s).Keys
    ensures forall id :: id in r ==> r[id].file == DerivedRows(x, s)[id].file
  {
    map id | id in DerivedRows(x, s) :: ResolvedRow(DerivedRows(x, s)[id], EntitiesOf(x, s))
  }

  // ---- symbol keys and fingerprints -----------------------------------------

  datatype SymbolKey = QualifiedKey(name: string) | NameKey(name: string)
  {
    predicate Of(e: Entity)
    {
      match this
      case QualifiedKey(n) => e.qualifiedName == n
      case NameKey(n) => e.name == n
    }

    function Order(): (Entity, Entity) -> bool
    {
      match this
      case QualifiedKey(_) => QualifiedOrder
      case NameKey(_) => NameOrder
    }
  }

  function Matching(s: seq<Entity>, key: SymbolKey): (r: seq<Entity>)
    ensures forall e :: e in r <==> e in s && key.Of(e)
  {
    if s == [] then []
    else if key.Of(s[0]) then [s[0]] + Matching(s[1..], key)
    else Matching(s[1..], key)
  }

  function Ids(s: seq<Entity>): (r: seq<EntityId>)
    ensures |r| == |s| && forall i :: 0 <= i < |s| ==> r[i] == s[i].id
  {
    seq(|s|, i requires 0 <= i < |s| => s[i].id)
  }

  /** The candidates of one file under `key`, in resolution order. */
  function Candidates(entities: seq<Entity>, key: SymbolKey): seq<Entity>
  {
    StableSort(key.Order(), Matching(entities, key))
  }

  /** The candidate fingerprint of `key` in one file: its entity ids in resolution order. */
  function Fingerprint(entities: seq<Entity>, key: SymbolKey): seq<EntityId>
  {
    Ids(Candidates(entities, key))
  }

  ghost function FingerprintIn(x: Extractor, s: Snapshot, f: FileId, key: SymbolKey): seq<EntityId>
  {
    if f in s then Fingerprint(x.entities(f, s[f]), key) else []
  }

  lemma CandidatesInOrder(entities: seq<Entity>, key: SymbolKey)
    ensures Ordered(key.Order(), Candidates(entities, key))
    ensures forall e :: e in Candidates(entities, key) <==> e in entities && key.Of(e)
  {
    OrdersAreTotal();
    var m := Matching(entities, key);
    SortOrders(key.Order(), m);
    SameElements(Candidates(entities, key), m);
  }

  lemma {:induction false} SortOrders(le: (Entity, Entity) -> bool, s: seq<Entity>)
    requires TotalPreorder(le)
    ensures Ordered(le, StableSort(le, s))
  {
    var anyOrder := (a: Entity, b: Entity) => true;
    SortIsStable(le, anyOrder, s);
    var r := StableSort(le, s);
    forall i, j | 0 <= i < j < |r|
      ensures le(r[i], r[j])
    {
      assert Lex(le, anyOrder, r[i], r[j]);
    }
  }

  lemma IdIsOf(c: seq<Entity>, id: EntityId)
    ensures id in Ids(c) <==> exists e :: e in c && e.id == id
  {
    if id in Ids(c) {
      var i :| 0 <= i < |c| && Ids(c)[i] == id;
      assert c[i] in c;
    }
    if e :| e in c && e.id == id {
      var i :| 0 <= i < |c| && c[i] == e;
      assert Ids(c)[i] == id;
    }
  }

  lemma EntityInFile(x: Extractor, s: Snapshot, e: Entity)
    requires x.Valid()
    ensures e in EntitiesOf(x, s) <==> e.file in s && e in x.entities(e.file, s[e.file])
  {
  }

  /** The ids of a fingerprint are the ids of the file's candidates. */
  lemma FingerprintNames(x: Extractor, s: Snapshot, f: FileId, key: SymbolKey, id: EntityId)
    requires x.Valid()
    ensures id in FingerprintIn(x, s, f, key) <==>
      exists e :: e in EntitiesOf(x, s) && e.file == f && key.Of(e) && e.id == id
  {
    forall e | e in EntitiesOf(x, s)
      ensures e.file in s && e in x.entities(e.file, s[e.file])
    {
      EntityInFile(x, s, e);
    }
    if f in s {
      var c := Candidates(x.entities(f, s[f]), key);
      CandidatesInOrder(x.entities(f, s[f]), key);
      IdIsOf(c, id);
    }
  }

  lemma EntityIdsUnique(x: Extractor, s: Snapshot, d: Entity, e: Entity)
    requires x.Valid()
    requires d in EntitiesOf(x, s) && e in EntitiesOf(x, s) && d.id == e.id
    ensures d == e
  {
    assert d.file == e.file;
    var es := x.entities(d.file, s[d.file]);
    assert d in es && e in es;
    var i :| 0 <= i < |es| && es[i] == d;
    var j :| 0 <= j < |es| && es[j] == e;
  }

  /** In two ordered lists with equal ids, two ids come in the same order. */
  lemma PositionDecidesOrder(
    key: SymbolKey, c: seq<Entity>, d: seq<Entity>, a: Entity, b: Entity, a': Entity, b': Entity)
    requires Ordered(key.Order(), c) && Ordered(key.Order(), d) && Ids(c) == Ids(d)
    requires a in c && b in c && a' in d && b' in d
    requires forall e :: e in d && e.id == a.id ==> e == a'
    requires forall e :: e in d && e.id == b.id ==> e == b'
    requires a.id != b.id && key.Order()(a, b)
    ensures key.Order()(a', b')
  {
    var i :| 0 <= i < |c| && c[i] == a;
    var j :| 0 <= j < |c| && c[j] == b;
    OrdersAgree(a, b);
    assert j < i ==> key.Order()(b, a);
    assert Ids(d)[i] == a.id && Ids(d)[j] == b.id;
    assert d[i] in d && d[j] in d;
  }

  lemma CandidateOfFile(x: Extractor, s: Snapshot, key: SymbolKey, e: Entity)
    requires x.Valid() && e in EntitiesOf(x, s) && key.Of(e)
    ensures e.file in s && e in Candidates(x.entities(e.file, s[e.file]), key)
  {
    EntityInFile(x, s, e);
    CandidatesInOrder(x.entities(e.file, s[e.file]), key);
  }

  lemma CandidateIdsUnique(x: Extractor, s: Snapshot, f: FileId, key: SymbolKey, e: Entity)
    requires x.Valid() && f in s && e in Candidates(x.entities(f, s[f]), key)
    ensures forall d :: d in Candidates(x.entities(f, s[f]), key) && d.id == e.id ==> d == e
  {
    CandidatesInOrder(x.entities(f, s[f]), key);
    forall d | d in Candidates(x.entities(f, s[f]), key) && d.id == e.id
      ensures d == e
    {
      assert d in EntitiesOf(x, s) && e in EntitiesOf(x, s);
      EntityIdsUnique(x, s, d, e);
    }
  }

  /** Within one file the position in the fingerprint is the resolution order. */
  lemma FingerprintDecidesOrder(
    x: Extractor, s: Snapshot, t: Snapshot, key: SymbolKey, a: Entity, b: Entity, a': Entity, b': Entity)
    requires x.Valid()
    requires a in EntitiesOf(x, s) && b in EntitiesOf(x, s) && a' in EntitiesOf(x, t) && b' in EntitiesOf(x, t)
    requires a.id == a'.id && b.id == b'.id && a.id != b.id
    requires a.file == b.file == a'.file == b'.file
    requires key.Of(a) && key.Of(b) && key.Of(a') && key.Of(b')
    requires FingerprintIn(x, s, a.file, key) == FingerprintIn(x, t, a.file, key)
    requires key.Order()(a, b)
    ensures key.Order()(a', b')
  {
    var f := a.file;
    CandidateOfFile(x, s, key, a);
    CandidateOfFile(x, s, key, b);
    CandidateOfFile(x, t, key, a');
    CandidateOfFile(x, t, key, b');
    var c := Candidates(x.entities(f, s[f]), key);
    var d := Candidates(x.entities(f, t[f]), key);
    CandidateIdsUnique(x, t, f, key, a');
    CandidateIdsUnique(x, t, f, key, b');
    CandidatesInOrder(x.entities(f, s[f]), key);
    CandidatesInOrder(x.entities(f, t[f]), key);
    PositionDecidesOrder(key, c, d, a, b, a', b');
  }

  /** The candidates of `key` outside `file`. */
  ghost function Outside(x: Extractor, s: Snapshot, file: FileId, key: SymbolKey): set<Entity>
  {
    set e | e in EntitiesOf(x, s) && e.file != file && key.Of(e)
  }

  ghost predicate SameFingerprints(x: Extractor, s: Snapshot, t: Snapshot, file: FileId, key: SymbolKey)
  {
    forall g :: g != file ==> FingerprintIn(x, s, g, key) == FingerprintIn(x, t, g, key)
  }

  lemma Counterpart(x: Extractor, s: Snapshot, t: Snapshot, file: FileId, key: SymbolKey, e: Entity)
    returns (e': Entity)
    requires x.Valid() && SameFingerprints(x, s, t, file, key)
    requires e in Outside(x, s, file, key)
    ensures e' in Outside(x, t, file, key)
    ensures e'.id == e.id && e'.file == e.file && e'.qualifiedName == e.qualifiedName
  {
    FingerprintNames(x, s, e.file, key, e.id);
    FingerprintNames(x, t, e.file, key, e.id);
    e' :| e' in EntitiesOf(x, t) && e'.file == e.file && key.Of(e') && e'.id == e.id;
    assert e in x.entities(e.file, s[e.file]) && e' in x.entities(e.file, t[e.file]);
  }

  lemma OrderCarriesOver(
    x: Extractor, s: Snapshot, t: Snapshot, file: FileId, key: SymbolKey,
    a: Entity, b: Entity, a': Entity, b': Entity)
    requires x.Valid() && SameFingerprints(x, s, t, file, key)
    requires a in Outside(x, s, file, key) && b in Outside(x, s, file, key)
    requires a' in Outside(x, t, file, key) && b' in Outside(x, t, file, key)
    requires a.id == a'.id && a.file == a'.file && a.qualifiedName == a'.qualifiedName
    requires b.id == b'.id && b.file == b'.file && b.qualifiedName == b'.qualifiedName
    requires key.Order()(a, b)
    ensures key.Order()(a', b')
  {
    if a.id == b.id {
      EntityIdsUnique(x, t, a', b');
      OrdersAreTotal();
      assert key.Order()(a', b');
    } else if a.file == b.file {
      FingerprintDecidesOrder(x, s, t, key, a, b, a', b');
    }
  }

  lemma {:induction false} IdImage(c: set<Entity>)
    requires forall d, e :: d in c && e in c && d.id == e.id ==> d == e
    ensures |set e | e in c :: e.id| == |c|
    decreases |c|
  {
    var ids := set e | e in c :: e.id;
    if c != {} {
      var e :| e in c;
      IdImage(c - {e});
      var rest := set d | d in c - {e} :: d.id;
      assert ids == rest + {e.id};
      assert e.id !in rest;
    } else {
      assert ids == {};
    }
  }

  ghost function OutsideIds(x: Extractor, s: Snapshot, file: FileId, key: SymbolKey): set<EntityId>
  {
    set e | e in Outside(x, s, file, key) :: e.id
  }

  lemma OutsideIdsCarryOver(x: Extractor, s: Snapshot, t: Snapshot, file: FileId, key: SymbolKey)
    requires x.Valid() && SameFingerprints(x, s, t, file, key)
    ensures OutsideIds(x, s, file, key) <= OutsideIds(x, t, file, key)
  {
    forall e | e in Outside(x, s, file, key)
      ensures e.id in OutsideIds(x, t, file, key)
    {
      var e' := Counterpart(x, s, t, file, key, e);
    }
  }

  lemma OutsideIdCount(x: Extractor, s: Snapshot, file: FileId, key: SymbolKey)
    requires x.Valid()
    ensures |OutsideIds(x, s, file, key)| == |Outside(x, s, file, key)|
  {
    var c := Outside(x, s, file, key);
    forall a, b | a in c && b in c && a.id == b.id
      ensures a == b
    {
      EntityIdsUnique(x, s, a, b);
    }
    IdImage(c);
  }

  lemma SameCardinality(x: Extractor, s: Snapshot, t: Snapshot, file: FileId, key: SymbolKey)
    requires x.Valid() && SameFingerprints(x, s, t, file, key)
    ensures |Outside(x, s, file, key)| == |Outside(x, t, file, key)|
  {
    OutsideIdsCarryOver(x, s, t, file, key);
    OutsideIdsCarryOver(x, t, s, file, key);
    OutsideIdCount(x, s, file, key);
    OutsideIdCount(x, t, file, key);
    assert OutsideIds(x, s, file, key) == OutsideIds(x, t, file, key);
  }

  lemma LeastCarriesOver(x: Extractor, s: Snapshot, t: Snapshot, file: FileId, key: SymbolKey, e: Entity)
    returns (e': Entity)
    requires x.Valid() && SameFingerprints(x, s, t, file, key)
    requires IsLeast(key.Order(), e, Outside(x, s, file, key))
    ensures IsLeast(key.Order(), e', Outside(x, t, file, key))
    ensures e'.id == e.id
  {
    e' := Counterpart(x, s, t, file, key, e);
    forall y' | y' in Outside(x, t, file, key)
      ensures key.Order()(e', y')
    {
      var y := Counterpart(x, t, s, file, key, y');
      OrderCarriesOver(x, s, t, file, key, e, y, e', y');
    }
  }

  lemma CandidatesAreOutside(x: Extractor, s: Snapshot, file: FileId, text: string)
    ensures QualifiedCandidates(text, file, EntitiesOf(x, s)) == Outside(x, s, file, QualifiedKey(text))
    ensures NameCandidates(text, file, EntitiesOf(x, s)) == Outside(x, s, file, NameKey(Bare(text)))
  {
  }

  lemma QualifiedTargetCarriesOver(
    x: Extractor, s: Snapshot, t: Snapshot, file: FileId, text: string, target: Target)
    requires x.Valid() && SameFingerprints(x, s, t, file, QualifiedKey(text))
    requires IsQualifiedTarget(text, Outside(x, s, file, QualifiedKey(text)), target)
    ensures IsQualifiedTarget(text, Outside(x, t, file, QualifiedKey(text)), target)
  {
    var q := QualifiedKey(text);
    SameCardinality(x, s, t, file, q);
    var e :| IsLeast(QualifiedOrder, e, Outside(x, s, file, q)) && target.entity == Some(e.id);
    assert IsLeast(q.Order(), e, Outside(x, s, file, q));
    var e' := LeastCarriesOver(x, s, t, file, q, e);
    assert IsLeast(QualifiedOrder, e', Outside(x, t, file, q));
  }

  lemma LeastNamesTarget(bare: string, named: set<Entity>, e: Entity, target: Target)
    requires IsLeast(NameOrder, e, named)
    requires target == Target(Some(e.id), bare, Medium, NameOnly)
    ensures IsNameTarget(bare, named, target)
  {
  }

  lemma NameTargetCarriesOver(
    x: Extractor, s: Snapshot, t: Snapshot, file: FileId, bare: string, target: Target)
    requires x.Valid() && SameFingerprints(x, s, t, file, NameKey(bare))
    requires IsNameTarget(bare, Outside(x, s, file, NameKey(bare)), target)
    ensures IsNameTarget(bare, Outside(x, t, file, NameKey(bare)), target)
  {
    var n := NameKey(bare);
    if Outside(x, s, file, n) == {} {
      SameCardinality(x, s, t, file, n);
    } else {
      var e :| IsLeast(NameOrder, e, Outside(x, s, file, n)) && target == Target(Some(e.id), bare, Medium, NameOnly);
      assert n.Order() == NameOrder;
      var e' := LeastCarriesOver(x, s, t, file, n, e);
      LeastNamesTarget(bare, Outside(x, t, file, n), e', target);
    }
  }

  /** A reference whose two symbol keys kept their fingerprints in every other
      file resolves alike in both snapshots. */
  lemma SameFingerprintsSameTarget(x: Extractor, s: Snapshot, t: Snapshot, file: FileId, text: string)
    requires x.Valid()
    requires SameFingerprints(x, s, t, file, QualifiedKey(text))
    requires SameFingerprints(x, s, t, file, NameKey(Bare(text)))
    ensures NaiveTarget(text, file, EntitiesOf(x, s)) == NaiveTarget(text, file, EntitiesOf(x, t))
  {
    var target := NaiveTarget(text, file, EntitiesOf(x, s));
    CandidatesAreOutside(x, s, file, text);
    CandidatesAreOutside(x, t, file, text);
    SameCardinality(x, s, t, file, QualifiedKey(text));
    if QualifiedCandidates(text, file, EntitiesOf(x, s)) != {} {
      QualifiedTargetCarriesOver(x, s, t, file, text, target);
    } else {
      NameTargetCarriesOver(x, s, t, file, Bare(text), target);
    }
    NaiveTargetUnique(text, file, EntitiesOf(x, t), target, NaiveTarget(text, file, EntitiesOf(x, t)));
  }
}
