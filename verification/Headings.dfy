/** The heading structure of a document: parents and paths found with a stack
    of open headings. */
module Headings {
  import opened Wrappers
  import opened Text

  /** The structural part of a unit or chunk: whether it is a heading, its
      level, its text, the index of its parent and the path of heading texts. */
  datatype Node = Node(isHeading: bool, level: int, text: string, parent: Option<nat>, path: seq<string>)

  /** The heading texts met when following parents from `p`, outermost first. */
  function Trail(nodes: seq<Node>, p: Option<nat>): seq<string>
    decreases if p.Some? then p.value + 1 else 0
  {
    if p.None? || p.value >= |nodes| then []
    else
      var up := nodes[p.value].parent;
      (if up.Some? && up.value < p.value then Trail(nodes, up) else []) + [nodes[p.value].text]
  }

  lemma {:induction false} TrailOfPrefix(nodes: seq<Node>, more: seq<Node>, p: Option<nat>)
    requires p.Some? ==> p.value < |nodes|
    ensures Trail(nodes + more, p) == Trail(nodes, p)
    decreases if p.Some? then p.value + 1 else 0
  {
    if p.Some? {
      var up := nodes[p.value].parent;
      if up.Some? && up.value < p.value {
        TrailOfPrefix(nodes, more, up);
      }
    }
  }

  /** The levels below a bound; no bound stands for what is not a heading. */
  predicate Below(level: int, bound: Option<int>)
  {
    bound.None? || level < bound.value
  }

  /** The last heading among the first `n` nodes whose level is below the bound. */
  function LastBelow(nodes: seq<Node>, n: nat, bound: Option<int>): (r: Option<nat>)
    requires n <= |nodes|
    ensures r.Some? ==> r.value < n && nodes[r.value].isHeading && Below(nodes[r.value].level, bound)
  {
    if n == 0 then None
    else if nodes[n - 1].isHeading && Below(nodes[n - 1].level, bound) then Some(n - 1)
    else LastBelow(nodes, n - 1, bound)
  }

  /** No heading after it has a level below the bound. */
  lemma {:induction false} LastBelowIsLast(nodes: seq<Node>, n: nat, bound: Option<int>, j: nat)
    requires j < n <= |nodes| && nodes[j].isHeading && Below(nodes[j].level, bound)
    ensures LastBelow(nodes, n, bound).Some? && j <= LastBelow(nodes, n, bound).value
  {
    if !(nodes[n - 1].isHeading && Below(nodes[n - 1].level, bound)) {
      LastBelowIsLast(nodes, n - 1, bound, j);
    }
  }

  lemma {:induction false} LastBelowOfPrefix(nodes: seq<Node>, more: seq<Node>, n: nat, bound: Option<int>)
    requires n <= |nodes|
    ensures LastBelow(nodes + more, n, bound) == LastBelow(nodes, n, bound)
  {
    if n > 0 && !(nodes[n - 1].isHeading && Below(nodes[n - 1].level, bound)) {
      LastBelowOfPrefix(nodes, more, n - 1, bound);
    }
  }

  lemma {:induction false} LastBelowPastOthers(nodes: seq<Node>, i: nat, n: nat, bound: Option<int>)
    requires i <= n <= |nodes| && forall k :: i <= k < n ==> !nodes[k].isHeading
    ensures LastBelow(nodes, n, bound) == LastBelow(nodes, i, bound)
  {
    if i < n {
      LastBelowPastOthers(nodes, i, n - 1, bound);
    }
  }

  function BoundOf(node: Node): Option<int>
  {
    if node.isHeading then Some(node.level) else None
  }

  /** The parent of a heading is the last heading before it with a smaller
      level, that of anything else the last heading before it; the path is
      what following parents spells. */
  ghost predicate Nested(nodes: seq<Node>, i: nat)
    requires i < |nodes|
  {
    && nodes[i].parent == LastBelow(nodes, i, BoundOf(nodes[i]))
    && nodes[i].path == Trail(nodes, nodes[i].parent)
  }

  ghost predicate WellNested(nodes: seq<Node>)
  {
    forall i :: 0 <= i < |nodes| ==> Nested(nodes, i)
  }

  lemma NestedInMore(nodes: seq<Node>, more: seq<Node>, i: nat)
    requires i < |nodes| && Nested(nodes, i)
    ensures Nested(nodes + more, i)
  {
    LastBelowOfPrefix(nodes, more, i, BoundOf(nodes[i]));
    TrailOfPrefix(nodes, more, nodes[i].parent);
  }

  lemma LastIsNested(nodes: seq<Node>, node: Node)
    requires node.parent == LastBelow(nodes, |nodes|, BoundOf(node)) && node.path == Trail(nodes, node.parent)
    ensures Nested(nodes + [node], |nodes|)
  {
    LastBelowOfPrefix(nodes, [node], |nodes|, BoundOf(node));
    TrailOfPrefix(nodes, [node], node.parent);
  }

  lemma OneMoreNested(nodes: seq<Node>, node: Node)
    requires WellNested(nodes)
    requires node.parent == LastBelow(nodes, |nodes|, BoundOf(node)) && node.path == Trail(nodes, node.parent)
    ensures WellNested(nodes + [node])
  {
    var more := nodes + [node];
    LastIsNested(nodes, node);
    forall i | 0 <= i < |more|
      ensures Nested(more, i)
    {
      if i < |nodes| {
        assert Nested(nodes, i);
        NestedInMore(nodes, [node], i);
      }
    }
  }

  /** No heading that could be the parent comes after it, and if there is one there is a parent. */
  lemma ParentIsLast(nodes: seq<Node>, i: nat, j: nat)
    requires WellNested(nodes) && j < i < |nodes|
    requires nodes[j].isHeading && (nodes[i].isHeading ==> nodes[j].level < nodes[i].level)
    ensures nodes[i].parent.Some? && j <= nodes[i].parent.value < i
  {
    assert Nested(nodes, i);
    LastBelowIsLast(nodes, i, BoundOf(nodes[i]), j);
  }

  /** Following parents, levels strictly decrease: along the path they increase. */
  lemma LevelsIncrease(nodes: seq<Node>, i: nat)
    requires WellNested(nodes) && i < |nodes| && nodes[i].parent.Some?
    ensures nodes[i].parent.value < i && nodes[nodes[i].parent.value].isHeading
    ensures nodes[i].isHeading ==> nodes[nodes[i].parent.value].level < nodes[i].level
  {
    assert Nested(nodes, i);
  }

  /** Two nodes with no heading from the first to before the second, neither a
      heading themselves, share parent and path. */
  lemma {:induction false} SameRunSameParent(nodes: seq<Node>, i: nat, j: nat)
    requires WellNested(nodes) && i <= j < |nodes|
    requires forall k :: i <= k <= j ==> !nodes[k].isHeading
    ensures nodes[i].parent == nodes[j].parent && nodes[i].path == nodes[j].path
    decreases j - i
  {
    assert Nested(nodes, i) && Nested(nodes, j);
    if i < j {
      SameRunSameParent(nodes, i, j - 1);
      assert Nested(nodes, j - 1);
    }
  }

  // ---- the stack of open headings ------------------------------------------------------

  /** An open heading: its level, its index and its text. */
  type Open = (int, nat, string)

  function Texts(stack: seq<Open>): seq<string>
  {
    if stack == [] then [] else Texts(stack[..|stack| - 1]) + [stack[|stack| - 1].2]
  }

  function Top(stack: seq<Open>): Option<nat>
  {
    if stack == [] then None else Some(stack[|stack| - 1].1)
  }

  /** The open headings below a bound, the innermost ones popped. */
  function Pop(stack: seq<Open>, bound: Option<int>): (r: seq<Open>)
    ensures r == [] || Below(r[|r| - 1].0, bound)
  {
    if stack != [] && !Below(stack[|stack| - 1].0, bound) then Pop(stack[..|stack| - 1], bound) else stack
  }

  /** For every bound, what remains on the stack is the last heading below it
      and spells its path. */
  ghost predicate StackFinds(stack: seq<Open>, nodes: seq<Node>)
  {
    forall bound :: Finds(stack, nodes, bound)
  }

  ghost predicate Finds(stack: seq<Open>, nodes: seq<Node>, bound: Option<int>)
  {
    && Top(Pop(stack, bound)) == LastBelow(nodes, |nodes|, bound)
    && Texts(Pop(stack, bound)) == Trail(nodes, Top(Pop(stack, bound)))
  }

  lemma {:induction false} PopTwice(stack: seq<Open>, level: int, bound: Option<int>)
    requires bound.Some? && bound.value <= level
    ensures Pop(Pop(stack, Some(level)), bound) == Pop(stack, bound)
    decreases |stack|
  {
    if stack != [] && stack[|stack| - 1].0 >= level {
      PopTwice(stack[..|stack| - 1], level, bound);
    }
  }

  /** Appending what is not a heading keeps what the stack finds. */
  lemma FindsAfterOther(stack: seq<Open>, nodes: seq<Node>, node: Node)
    requires StackFinds(stack, nodes) && !node.isHeading
    ensures StackFinds(stack, nodes + [node])
  {
    forall bound
      ensures Finds(stack, nodes + [node], bound)
    {
      assert Finds(stack, nodes, bound);
      LastBelowOfPrefix(nodes, [node], |nodes|, bound);
      TrailOfPrefix(nodes, [node], Top(Pop(stack, bound)));
    }
  }

  /** Opening a heading: the stack is popped to what is below it and it is pushed. */
  lemma FindsAfterHeading(stack: seq<Open>, nodes: seq<Node>, node: Node)
    requires StackFinds(stack, nodes) && node.isHeading
    requires node.parent == Top(Pop(stack, Some(node.level)))
    ensures StackFinds(Pop(stack, Some(node.level)) + [(node.level, |nodes|, node.text)], nodes + [node])
  {
    var popped := Pop(stack, Some(node.level));
    var pushed := popped + [(node.level, |nodes|, node.text)];
    var more := nodes + [node];
    assert pushed[..|popped|] == popped;
    forall bound
      ensures Finds(pushed, more, bound)
    {
      if Below(node.level, bound) {
        FindsPushed(stack, nodes, node);
      } else {
        PopTwice(stack, node.level, bound);
        assert Finds(stack, nodes, bound);
        LastBelowOfPrefix(nodes, [node], |nodes|, bound);
        TrailOfPrefix(nodes, [node], Top(Pop(stack, bound)));
      }
    }
  }

  lemma FindsPushed(stack: seq<Open>, nodes: seq<Node>, node: Node)
    requires StackFinds(stack, nodes) && node.isHeading
    requires node.parent == Top(Pop(stack, Some(node.level)))
    ensures var popped := Pop(stack, Some(node.level));
      Texts(popped + [(node.level, |nodes|, node.text)]) == Trail(nodes + [node], Some(|nodes|))
  {
    var popped := Pop(stack, Some(node.level));
    assert Finds(stack, nodes, Some(node.level));
    assert (popped + [(node.level, |nodes|, node.text)])[..|popped|] == popped;
    TrailOfPrefix(nodes, [node], node.parent);
  }

  // ---- normalization ----------------------------------------------------------------------

  /** A document item in reading order; a skipped one is a label or a caption
      that is not part of the text. */
  datatype Item = Skipped | HeadingItem(level: int, text: string) | TableItem | TextItem(text: string)

  datatype Normalized = Normalized(node: Node, isTable: bool)

  /** What a unit is, without its place: heading, table, level and text. */
  type Shape = (bool, bool, int, string)

  function ShapesOf(units: seq<Normalized>): seq<Shape>
  {
    if units == [] then []
    else
      var u := units[|units| - 1];
      ShapesOf(units[..|units| - 1]) + [(u.node.isHeading, u.isTable, u.node.level, u.node.text)]
  }

  /** The units the items stand for: everything but skipped items and blank text. */
  function Kept(items: seq<Item>): seq<Shape>
  {
    if items == [] then []
    else
      Kept(items[..|items| - 1]) +
      match items[|items| - 1]
      case Skipped => []
      case HeadingItem(level, text) => [(true, false, level, text)]
      case TableItem => [(false, true, 0, [])]
      case TextItem(text) => if Strip(text) == [] then [] else [(false, false, 0, Strip(text))]
  }

  function NodesOf(units: seq<Normalized>): seq<Node>
  {
    seq(|units|, i requires 0 <= i < |units| => units[i].node)
  }

  lemma NodesOfMore(units: seq<Normalized>, u: Normalized)
    ensures NodesOf(units + [u]) == NodesOf(units) + [u.node]
    ensures ShapesOf(units + [u]) == ShapesOf(units) + [(u.node.isHeading, u.isTable, u.node.level, u.node.text)]
  {
    assert (units + [u])[..|units|] == units;
  }

  /** Pops the headings that the new one closes. */
  method Close(stack: seq<Open>, level: int) returns (popped: seq<Open>)
    ensures popped == Pop(stack, Some(level))
  {
    popped := stack;
    while popped != [] && popped[|popped| - 1].0 >= level
      invariant Pop(stack, Some(level)) == Pop(popped, Some(level))
    {
      popped := popped[..|popped| - 1];
    }
  }

  /** The units of a document, each with the parent and path its place gives it. */
  method Normalize(items: seq<Item>) returns (units: seq<Normalized>)
    ensures WellNested(NodesOf(units)) && ShapesOf(units) == Kept(items)
  {
    units := [];
    var stack: seq<Open> := [];
    for i := 0 to |items|
      invariant WellNested(NodesOf(units)) && StackFinds(stack, NodesOf(units))
      invariant ShapesOf(units) == Kept(items[..i])
    {
      ghost var nodes := NodesOf(units);
      assert items[..i + 1][..i] == items[..i];
      match items[i] {
        case Skipped =>
        case HeadingItem(level, text) =>
          var open := Close(stack, level);
          var node := Node(true, level, text, Top(open), Texts(open));
          HeadingUnit(stack, nodes, node);
          NodesOfMore(units, Normalized(node, false));
          stack := open + [(level, |units|, text)];
          units := units + [Normalized(node, false)];
        case TableItem =>
          var node := Node(false, 0, "", Top(stack), Texts(stack));
          OtherUnit(stack, nodes, node);
          NodesOfMore(units, Normalized(node, true));
          units := units + [Normalized(node, true)];
        case TextItem(text) =>
          if Strip(text) != [] {
            var node := Node(false, 0, Strip(text), Top(stack), Texts(stack));
            OtherUnit(stack, nodes, node);
            NodesOfMore(units, Normalized(node, false));
            units := units + [Normalized(node, false)];
          }
      }
    }
    assert items[..|items|] == items;
  }

  lemma HeadingUnit(stack: seq<Open>, nodes: seq<Node>, node: Node)
    requires WellNested(nodes) && StackFinds(stack, nodes) && node.isHeading
    requires node.parent == Top(Pop(stack, Some(node.level))) && node.path == Texts(Pop(stack, Some(node.level)))
    ensures WellNested(nodes + [node])
    ensures StackFinds(Pop(stack, Some(node.level)) + [(node.level, |nodes|, node.text)], nodes + [node])
  {
    assert Finds(stack, nodes, Some(node.level));
    OneMoreNested(nodes, node);
    FindsAfterHeading(stack, nodes, node);
  }

  lemma OtherUnit(stack: seq<Open>, nodes: seq<Node>, node: Node)
    requires WellNested(nodes) && StackFinds(stack, nodes) && !node.isHeading
    requires node.parent == Top(stack) && node.path == Texts(stack)
    ensures WellNested(nodes + [node]) && StackFinds(stack, nodes + [node])
  {
    assert Pop(stack, None) == stack;
    assert Finds(stack, nodes, None);
    OneMoreNested(nodes, node);
    FindsAfterOther(stack, nodes, node);
  }
}
