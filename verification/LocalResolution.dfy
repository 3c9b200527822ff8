/** Resolving a reference in two stages: within its own file when the file is
    parsed, across files later. */
module LocalResolution {
  import opened Wrappers
  import opened Sorting
  import opened Resolution

  predicate QualifiedLe(a: Entity, b: Entity)
  {
    StrLe(a.qualifiedName, b.qualifiedName)
  }

  function Where(own: seq<Entity>, p: Entity -> bool): (r: seq<Entity>)
    ensures forall e :: e in r <==> e in own && p(e)
  {
    if own == [] then [] else (if p(own[0]) then [own[0]] else []) + Where(own[1..], p)
  }

  /** The same-file stage; no result means that other files are to be consulted. */
  function ResolveSameFile(text: string, own: seq<Entity>): Option<Target>
  {
    var bare := Bare(text);
    if bare == [] then Some(Target(None, text, Medium, Unresolved))
    else
      var qualified := Where(own, (e: Entity) => e.qualifiedName == text);
      if |qualified| == 1 then Some(Target(Some(qualified[0].id), text, Exact, SameFileQualified))
      else
        var named := StableSort(QualifiedLe, Where(own, (e: Entity) => e.name == bare));
        if named == [] then None
        else if |named| == 1 then Some(Target(Some(named[0].id), text, Exact, SameFileName))
        else Some(Target(Some(named[0].id), text, High, SameFileNameAmbiguous))
  }

  /** What the derivation of a file records for a reference. */
  function ResolveLocally(text: string, own: seq<Entity>): Target
  {
    var found := ResolveSameFile(text, own);
    if found.Some? then found.value else Target(None, Bare(text), Medium, Pending)
  }

  /** The row of a reference in `file` whose resolution is `t`. */
  function ReferenceRow(file: FileId, text: string, t: Target): Row
  {
    Row(file, Some(text), None, None, Pending, Medium).WithTarget(t)
  }

  /** Full reference resolution: the same file first, then all others. */
  ghost function ResolveReference(text: string, file: FileId, own: seq<Entity>, entities: set<Entity>): Target
  {
    var found := ResolveSameFile(text, own);
    if found.Some? then found.value else NaiveTarget(text, file, entities)
  }

  /** No other file defines anything under the empty name. */
  ghost predicate NothingUnnamed(file: FileId, entities: set<Entity>)
  {
    QualifiedCandidates([], file, entities) == {} && NameCandidates([], file, entities) == {}
  }

  /** Exactly one entity of the file has the qualified name. */
  ghost predicate QualifiedOnce(text: string, own: seq<Entity>)
  {
    exists i :: 0 <= i < |own| && own[i].qualifiedName == text && OnlyAt(text, own, i)
  }

  ghost predicate OnlyAt(text: string, own: seq<Entity>, i: int)
  {
    forall j :: 0 <= j < |own| && own[j].qualifiedName == text ==> j == i
  }

  lemma {:induction false} NoneFound(own: seq<Entity>, p: Entity -> bool)
    ensures Where(own, p) == [] <==> forall i :: 0 <= i < |own| ==> !p(own[i])
  {
    if own != [] {
      NoneFound(own[1..], p);
      assert forall j :: 1 <= j < |own| ==> own[j] == own[1..][j - 1];
    }
  }

  /** Of all entities only the one at `i` satisfies `p`. */
  ghost predicate IsOnly(own: seq<Entity>, p: Entity -> bool, i: int)
  {
    0 <= i < |own| && p(own[i]) && forall j :: 0 <= j < |own| && p(own[j]) ==> j == i
  }

  lemma {:induction false} OneFound(own: seq<Entity>, p: Entity -> bool)
    ensures |Where(own, p)| == 1 <==> exists i :: IsOnly(own, p, i)
  {
    if own != [] {
      var rest := own[1..];
      assert forall j :: 1 <= j < |own| ==> own[j] == rest[j - 1];
      NoneFound(rest, p);
      if p(own[0]) {
        assert Where(rest, p) == [] ==> IsOnly(own, p, 0);
        assert forall i :: IsOnly(own, p, i) ==> i == 0;
      } else {
        OneFound(rest, p);
        assert forall i :: IsOnly(rest, p, i) ==> IsOnly(own, p, i + 1);
        assert forall i :: IsOnly(own, p, i) ==> IsOnly(rest, p, i - 1);
      }
    }
  }

  lemma QualifiedOnceIff(text: string, own: seq<Entity>)
    ensures QualifiedOnce(text, own) <==> |Where(own, (e: Entity) => e.qualifiedName == text)| == 1
  {
    var p := (e: Entity) => e.qualifiedName == text;
    OneFound(own, p);
    if |Where(own, p)| == 1 {
      var i :| IsOnly(own, p, i);
      assert OnlyAt(text, own, i) by {
        forall j | 0 <= j < |own| && own[j].qualifiedName == text
          ensures j == i
        {
          assert p(own[j]);
        }
      }
    }
    if QualifiedOnce(text, own) {
      var i :| 0 <= i < |own| && own[i].qualifiedName == text && OnlyAt(text, own, i);
      assert IsOnly(own, p, i);
    }
  }

  /** The same-file stage leaves a reference to other files exactly when it has
      a name, no single entity of the file has the qualified one, and none the bare one. */
  lemma LeftToOtherFilesIff(text: string, own: seq<Entity>)
    ensures ResolveSameFile(text, own).None? <==>
      (Bare(text) != [] && !QualifiedOnce(text, own) && forall o :: o in own ==> o.name != Bare(text))
  {
    var named := Where(own, (e: Entity) => e.name == Bare(text));
    QualifiedOnceIff(text, own);
    SameElements(StableSort(QualifiedLe, named), named);
    if named != [] {
      assert named[0] in named;
    }
    if StableSort(QualifiedLe, named) != [] {
      assert StableSort(QualifiedLe, named)[0] in named;
    }
    forall o | o in own && o.name == Bare(text)
      ensures o in named
    {
    }
  }

  /** Exactly one entity of the file has the bare name. */
  ghost predicate NamedOnce(name: string, own: seq<Entity>)
  {
    exists i :: 0 <= i < |own| && own[i].name == name && OnlyNamedAt(name, own, i)
  }

  ghost predicate OnlyNamedAt(name: string, own: seq<Entity>, i: int)
  {
    forall j :: 0 <= j < |own| && own[j].name == name ==> j == i
  }

  lemma NamedOnceIff(name: string, own: seq<Entity>)
    ensures NamedOnce(name, own) <==> |Where(own, (e: Entity) => e.name == name)| == 1
  {
    var p := (e: Entity) => e.name == name;
    OneFound(own, p);
    if |Where(own, p)| == 1 {
      var i :| IsOnly(own, p, i);
      assert OnlyNamedAt(name, own, i) by {
        forall j | 0 <= j < |own| && own[j].name == name
          ensures j == i
        {
          assert p(own[j]);
        }
      }
    }
    if NamedOnce(name, own) {
      var i :| 0 <= i < |own| && own[i].name == name && OnlyNamedAt(name, own, i);
      assert IsOnly(own, p, i);
    }
  }

  /** A reference without a bare name (empty, or ending in a dot) is settled at
      once: as unresolved under its whole text. */
  lemma NamelessReference(text: string, own: seq<Entity>)
    ensures ResolveSameFile(text, own).Some? && ResolveSameFile(text, own).value.entity.None? <==>
      text == [] || text[|text| - 1] == '.'
    ensures text == [] || text[|text| - 1] == '.' ==>
      ResolveSameFile(text, own) == Some(Target(None, text, Medium, Unresolved))
  {
  }

  /** A match in the same file is an entity of the file: the only one with the
      qualified name if there is one, else the one with the bare name whose
      qualified name comes first; it is exact unless several have the bare name. */
  lemma SameFileMatch(text: string, own: seq<Entity>) returns (e: Entity)
    requires ResolveSameFile(text, own).Some? && ResolveSameFile(text, own).value.entity.Some?
    ensures e in own && ResolveSameFile(text, own).value.entity == Some(e.id)
    ensures ResolveSameFile(text, own).value.symbol == text
    ensures var t := ResolveSameFile(text, own).value;
      if QualifiedOnce(text, own) then
        e.qualifiedName == text && t.resolver == SameFileQualified && t.confidence == Exact
      else
        && e.name == Bare(text) && (forall o :: o in own && o.name == Bare(text) ==> QualifiedLe(e, o))
        && (if NamedOnce(Bare(text), own) then t.resolver == SameFileName && t.confidence == Exact
            else t.resolver == SameFileNameAmbiguous && t.confidence == High)
  {
    NamedOnceIff(Bare(text), own);
    var qualified := Where(own, (e: Entity) => e.qualifiedName == text);
    QualifiedOnceIff(text, own);
    if |qualified| == 1 {
      e := qualified[0];
      assert e in qualified;
    } else {
      var named := Where(own, (e: Entity) => e.name == Bare(text));
      var sorted := StableSort(QualifiedLe, named);
      e := sorted[0];
      SameElements(sorted, named);
      assert e in sorted;
      FirstByQualifiedName(named);
      forall o | o in own && o.name == Bare(text)
        ensures QualifiedLe(e, o)
      {
        assert o in named;
      }
    }
  }

  lemma FirstByQualifiedName(s: seq<Entity>)
    requires s != []
    ensures StableSort(QualifiedLe, s) != []
    ensures forall o :: o in s ==> QualifiedLe(StableSort(QualifiedLe, s)[0], o)
  {
    var sorted := StableSort(QualifiedLe, s);
    SameElements(sorted, s);
    QualifiedIsTotal();
    SortIsStable(QualifiedLe, (a: Entity, b: Entity) => true, s);
    forall o | o in s
      ensures QualifiedLe(sorted[0], o)
    {
      assert o in sorted;
      var k :| 0 <= k < |sorted| && sorted[k] == o;
      if k == 0 {
        StrLeTotal(o.qualifiedName, o.qualifiedName);
      } else {
        assert Lex(QualifiedLe, (a: Entity, b: Entity) => true, sorted[0], sorted[k]);
      }
    }
  }

  lemma QualifiedIsTotal()
    ensures TotalPreorder(QualifiedLe)
  {
    forall a: Entity, b: Entity
      ensures QualifiedLe(a, b) || QualifiedLe(b, a)
    {
      StrLeTotal(a.qualifiedName, b.qualifiedName);
    }
    forall a: Entity, b: Entity, c: Entity | QualifiedLe(a, b) && QualifiedLe(b, c)
      ensures QualifiedLe(a, c)
    {
      StrLeTransitive(a.qualifiedName, b.qualifiedName, c.qualifiedName);
    }
  }

  /** Exactly when deriving a row from its own file and re-resolving it across
      files later gives what full resolution gives: unless the reference ends
      in a dot. Such a reference is settled in its own file under its whole
      text, but the later pass takes it up again and renames it. */
  lemma StagesAgreeIff(text: string, file: FileId, own: seq<Entity>, entities: set<Entity>)
    ensures ResolvedRow(ReferenceRow(file, text, ResolveLocally(text, own)), entities)
         == ReferenceRow(file, text, ResolveReference(text, file, own, entities))
      <==> Bare(text) != [] || (text == [] && NothingUnnamed(file, entities))
  {
    NaiveTargetExists(text, file, entities);
    var t := NaiveTarget(text, file, entities);
    var local := ReferenceRow(file, text, ResolveLocally(text, own));
    assert local.reference == Some(text) && local.file == file;
  }
}
