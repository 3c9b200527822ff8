/** Greedy grouping of weighted items. */
module Grouping {

  function Sum<T>(weight: T -> nat, items: seq<T>): nat
  {
    if items == [] then 0 else Sum(weight, items[..|items| - 1]) + weight(items[|items| - 1])
  }

  lemma {:induction false} SumAppend<T>(weight: T -> nat, a: seq<T>, b: seq<T>)
    ensures Sum(weight, a + b) == Sum(weight, a) + Sum(weight, b)
    decreases |b|
  {
    if b == [] {
      assert a + b == a;
    } else {
      assert (a + b)[..|a + b| - 1] == a + b[..|b| - 1];
      SumAppend(weight, a, b[..|b| - 1]);
    }
  }

  lemma SumSnoc<T>(weight: T -> nat, items: seq<T>, x: T)
    ensures Sum(weight, items + [x]) == Sum(weight, items) + weight(x)
  {
    assert (items + [x])[..|items|] == items;
  }

  lemma SumOne<T>(weight: T -> nat, x: T)
    ensures Sum(weight, [x]) == weight(x)
  {
    assert [x][..0] == [];
  }

  lemma SumThree<T>(weight: T -> nat, a: T, b: T, c: T)
    ensures Sum(weight, [a, b, c]) == weight(a) + weight(b) + weight(c)
  {
    assert [a, b, c] == [a, b] + [c] && [a, b] == [a] + [b];
    SumSnoc(weight, [a, b], c);
    SumSnoc(weight, [a], b);
    SumOne(weight, a);
  }

  lemma {:induction false} SumAtLeastFirst<T>(weight: T -> nat, items: seq<T>)
    requires items != []
    ensures weight(items[0]) <= Sum(weight, items)
    decreases |items|
  {
    if |items| > 1 {
      SumAtLeastFirst(weight, items[..|items| - 1]);
    }
  }

  lemma {:induction false} SumIsMonotone<T>(weight: T -> nat, a: seq<T>, b: seq<T>)
    requires |a| == |b| && forall k :: 0 <= k < |a| ==> weight(a[k]) <= weight(b[k])
    ensures Sum(weight, a) <= Sum(weight, b)
    decreases |a|
  {
    if a != [] {
      SumIsMonotone(weight, a[..|a| - 1], b[..|b| - 1]);
    }
  }

  function Flatten<T>(groups: seq<seq<T>>): seq<T>
  {
    if groups == [] then [] else Flatten(groups[..|groups| - 1]) + groups[|groups| - 1]
  }

  lemma FlattenSnoc<T>(groups: seq<seq<T>>, g: seq<T>)
    ensures Flatten(groups + [g]) == Flatten(groups) + g
  {
    assert (groups + [g])[..|groups|] == groups;
  }

  lemma {:induction false} FlattenAppend<T>(a: seq<seq<T>>, b: seq<seq<T>>)
    ensures Flatten(a + b) == Flatten(a) + Flatten(b)
    decreases |b|
  {
    if b == [] {
      assert a + b == a;
    } else {
      assert (a + b)[..|a + b| - 1] == a + b[..|b| - 1];
      FlattenAppend(a, b[..|b| - 1]);
    }
  }

  lemma {:induction false} InFlatten<T>(groups: seq<seq<T>>, k: nat, x: T)
    requires k < |groups| && x in groups[k]
    ensures x in Flatten(groups)
    decreases |groups|
  {
    if k < |groups| - 1 {
      InFlatten(groups[..|groups| - 1], k, x);
    }
  }

  function MapGroups<T, U>(f: seq<T> -> U, groups: seq<seq<T>>): seq<U>
  {
    if groups == [] then [] else MapGroups(f, groups[..|groups| - 1]) + [f(groups[|groups| - 1])]
  }

  lemma MapGroupsSnoc<T, U>(f: seq<T> -> U, groups: seq<seq<T>>, g: seq<T>)
    ensures MapGroups(f, groups + [g]) == MapGroups(f, groups) + [f(g)]
  {
    assert (groups + [g])[..|groups|] == groups;
  }

  /** A group that is within the budget or cannot be made smaller. */
  predicate GroupFits<T>(weight: T -> nat, group: seq<T>, budget: int)
  {
    group != [] && (Sum(weight, group) <= budget || |group| == 1)
  }

  /** The groups hold the items in order, fit, and none could have taken in the next item. */
  ghost predicate IsPacking<T>(weight: T -> nat, groups: seq<seq<T>>, items: seq<T>, budget: int)
  {
    && Flatten(groups) == items
    && (forall k :: 0 <= k < |groups| ==> GroupFits(weight, groups[k], budget))
    && (forall k :: 0 <= k < |groups| - 1 ==> Sum(weight, groups[k]) + weight(groups[k + 1][0]) > budget)
  }

  /** The groups closed so far and the one being filled. */
  ghost predicate Filling<T>(
    weight: T -> nat, groups: seq<seq<T>>, buf: seq<T>, done: seq<T>, budget: int)
  {
    if buf == [] then groups == [] && done == [] else IsPacking(weight, groups + [buf], done, budget)
  }

  lemma StartGroup<T>(weight: T -> nat, groups: seq<seq<T>>, buf: seq<T>, done: seq<T>, budget: int, x: T)
    requires Filling(weight, groups, buf, done, budget) && buf != []
    requires Sum(weight, buf) + weight(x) > budget
    ensures Filling(weight, groups + [buf], [x], done + [x], budget)
  {
  }

  lemma FillGroup<T>(weight: T -> nat, groups: seq<seq<T>>, buf: seq<T>, done: seq<T>, budget: int, x: T)
    requires Filling(weight, groups, buf, done, budget)
    requires buf == [] || Sum(weight, buf) + weight(x) <= budget
    ensures Filling(weight, groups, buf + [x], done + [x], budget)
  {
  }

  /** A packing of items that fit has groups that fit. */
  lemma PackedGroupsFit<T>(weight: T -> nat, groups: seq<seq<T>>, items: seq<T>, budget: int)
    requires IsPacking(weight, groups, items, budget) && forall x :: x in items ==> weight(x) <= budget
    ensures forall k :: 0 <= k < |groups| ==> Sum(weight, groups[k]) <= budget
  {
    forall k | 0 <= k < |groups|
      ensures Sum(weight, groups[k]) <= budget
    {
      assert GroupFits(weight, groups[k], budget);
      if |groups[k]| == 1 {
        InFlatten(groups, k, groups[k][0]);
        SumOne(weight, groups[k][0]);
        assert groups[k] == [groups[k][0]];
      }
    }
  }
}
