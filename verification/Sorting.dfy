/** Orders on strings and the stable sort that the resolution code relies on. */
module Sorting {

  /** Lexicographic order on strings, as `str::cmp` and the store's `ORDER BY` use it. */
  predicate StrLe(a: string, b: string)
  {
    a == [] || (b != [] && (a[0] < b[0] || (a[0] == b[0] && StrLe(a[1..], b[1..]))))
  }

  lemma {:induction false} StrLeTotal(a: string, b: string)
    ensures StrLe(a, b) || StrLe(b, a)
    decreases |a|
  {
    if a != [] && b != [] && a[0] == b[0] {
      StrLeTotal(a[1..], b[1..]);
    }
  }

  lemma {:induction false} StrLeAntisymmetric(a: string, b: string)
    requires StrLe(a, b) && StrLe(b, a)
    ensures a == b
    decreases |a|
  {
    if a != [] {
      StrLeAntisymmetric(a[1..], b[1..]);
      assert a == [a[0]] + a[1..] && b == [b[0]] + b[1..];
    }
  }

  lemma {:induction false} StrLeTransitive(a: string, b: string, c: string)
    requires StrLe(a, b) && StrLe(b, c)
    ensures StrLe(a, c)
    decreases |a|
  {
    if a != [] && a[0] == b[0] && b[0] == c[0] {
      StrLeTransitive(a[1..], b[1..], c[1..]);
    }
  }

  ghost predicate TotalPreorder<T(!new)>(le: (T, T) -> bool)
  {
    && (forall a, b :: le(a, b) || le(b, a))
    && (forall a, b, c :: le(a, b) && le(b, c) ==> le(a, c))
  }

  ghost predicate Ordered<T>(le: (T, T) -> bool, s: seq<T>)
  {
    forall i, j :: 0 <= i < j < |s| ==> le(s[i], s[j])
  }

  ghost predicate Distinct<T>(s: seq<T>)
  {
    forall i, j :: 0 <= i < j < |s| ==> s[i] != s[j]
  }

  function Elements<T>(s: seq<T>): set<T>
  {
    set x | x in s
  }

  /** Places `x` before the first element it may precede. */
  function Insert<T>(le: (T, T) -> bool, x: T, s: seq<T>): (r: seq<T>)
    ensures multiset(r) == multiset([x]) + multiset(s)
  {
    if s == [] then [x]
    else if le(x, s[0]) then
      assert multiset([x] + s) == multiset([x]) + multiset(s);
      [x] + s
    else
      assert s == [s[0]] + s[1..];
      [s[0]] + Insert(le, x, s[1..])
  }

  /** A stable sort: `slice::sort_by`. */
  function StableSort<T>(le: (T, T) -> bool, s: seq<T>): (r: seq<T>)
    ensures multiset(r) == multiset(s)
  {
    if s == [] then []
    else
      assert s == [s[0]] + s[1..];
      Insert(le, s[0], StableSort(le, s[1..]))
  }

  /** Two elements in the order of `coarse`, ties broken by `fine`. */
  predicate Lex<T>(coarse: (T, T) -> bool, fine: (T, T) -> bool, a: T, b: T)
  {
    coarse(a, b) && (coarse(b, a) ==> fine(a, b))
  }

  ghost predicate LexOrdered<T>(coarse: (T, T) -> bool, fine: (T, T) -> bool, s: seq<T>)
  {
    forall i, j :: 0 <= i < j < |s| ==> Lex(coarse, fine, s[i], s[j])
  }

  lemma SameElements<T>(s: seq<T>, t: seq<T>)
    requires multiset(s) == multiset(t)
    ensures |s| == |t| && forall x :: x in s <==> x in t
  {
    assert |multiset(s)| == |s| && |multiset(t)| == |t|;
    forall x
      ensures x in s <==> x in t
    {
      assert x in s <==> x in multiset(s);
      assert x in t <==> x in multiset(t);
    }
  }

  lemma {:induction false} InsertKeepsLex<T(!new)>(coarse: (T, T) -> bool, fine: (T, T) -> bool, x: T, s: seq<T>)
    requires TotalPreorder(coarse)
    requires LexOrdered(coarse, fine, s)
    requires forall y :: y in s ==> fine(x, y)
    ensures LexOrdered(coarse, fine, Insert(coarse, x, s))
    decreases |s|
  {
    if s != [] {
      var r := Insert(coarse, x, s);
      if coarse(x, s[0]) {
        forall i, j | 0 <= i < j < |r|
          ensures Lex(coarse, fine, r[i], r[j])
        {
          if i == 0 && j > 1 {
            assert Lex(coarse, fine, s[0], s[j - 1]);
          }
          if i > 0 {
            assert Lex(coarse, fine, s[i - 1], s[j - 1]);
          }
        }
      } else {
        var t := Insert(coarse, x, s[1..]);
        InsertKeepsLex(coarse, fine, x, s[1..]);
        assert multiset(t) == multiset([x] + s[1..]);
        SameElements(t, [x] + s[1..]);
        forall i, j | 0 <= i < j < |r|
          ensures Lex(coarse, fine, r[i], r[j])
        {
          if i == 0 {
            assert r[j] == t[j - 1] && t[j - 1] in t;
            if t[j - 1] != x {
              var k :| 0 <= k < |s[1..]| && s[1..][k] == t[j - 1];
              assert Lex(coarse, fine, s[0], s[k + 1]);
            }
          } else {
            assert Lex(coarse, fine, t[i - 1], t[j - 1]);
          }
        }
      }
    }
  }

  /** Stability: sorting by `coarse` what was in order of `fine` leaves ties in order of `fine`. */
  lemma {:induction false} SortIsStable<T(!new)>(coarse: (T, T) -> bool, fine: (T, T) -> bool, s: seq<T>)
    requires TotalPreorder(coarse)
    requires Ordered(fine, s)
    ensures LexOrdered(coarse, fine, StableSort(coarse, s))
    decreases |s|
  {
    if s != [] {
      SortIsStable(coarse, fine, s[1..]);
      SameElements(StableSort(coarse, s[1..]), s[1..]);
      InsertKeepsLex(coarse, fine, s[0], StableSort(coarse, s[1..]));
    }
  }

  lemma {:induction false} SortedPrefixUnmoved<T>(le: (T, T) -> bool, s: seq<T>)
    requires Ordered(le, s)
    ensures StableSort(le, s) == s
    decreases |s|
  {
    if s != [] {
      SortedPrefixUnmoved(le, s[1..]);
      assert s == [s[0]] + s[1..];
    }
  }

  /** `x` comes no later than every element of `s`. */
  ghost predicate IsLeast<T(!new)>(le: (T, T) -> bool, x: T, s: set<T>)
  {
    x in s && forall y :: y in s ==> le(x, y)
  }

  lemma {:induction false} LeastExists<T(!new)>(le: (T, T) -> bool, s: set<T>)
    requires TotalPreorder(le)
    requires s != {}
    ensures exists x :: IsLeast(le, x, s)
    decreases |s|
  {
    var y :| y in s;
    var rest := s - {y};
    if rest == {} {
      assert s == {y};
      assert IsLeast(le, y, s);
    } else {
      LeastExists(le, rest);
      var x :| IsLeast(le, x, rest);
      if le(x, y) {
        assert IsLeast(le, x, s);
      } else {
        assert IsLeast(le, y, s);
      }
    }
  }

  lemma DistinctCardinality<T>(s: seq<T>)
    requires Distinct(s)
    ensures |Elements(s)| == |s|
    decreases |s|
  {
    if s == [] {
      assert Elements(s) == {};
    } else {
      var last := |s| - 1;
      DistinctCardinality(s[..last]);
      assert s[last] !in s[..last];
      assert Elements(s) == Elements(s[..last]) + {s[last]};
    }
  }
}
