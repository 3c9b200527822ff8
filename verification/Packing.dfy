/** Packing pieces into chunks: greedy windows with overlap, then rebalancing
    of neighbours that came out too small. */
module Packing {
  import opened Grouping
  import opened Wrappers

  datatype Piece = Piece(text: string, pageStart: Option<int>, pageEnd: Option<int>, tokens: nat)

  /** What a chunk body may hold; `overlap` is what it may repeat. */
  datatype Budget = Budget(bodyMax: int, overlap: int, minTokens: int, mergePeers: bool)
  {
    predicate Valid()
    {
      bodyMax >= 1 && overlap < bodyMax
    }
  }

  function Tokens(): Piece -> nat
  {
    (p: Piece) => p.tokens
  }

  type Window = (nat, nat)

  ghost predicate AllPiecesFit(pieces: seq<Piece>, budget: Budget)
  {
    forall p :: p in pieces ==> p.tokens <= budget.bodyMax
  }

  /** A group that could not have taken in the piece after it. */
  predicate Full(pieces: seq<Piece>, group: seq<Piece>, end: nat, budget: Budget)
  {
    || end >= |pieces|
    || Sum(Tokens(), group) >= budget.bodyMax
    || Sum(Tokens(), group) + pieces[end].tokens > budget.bodyMax
  }

  /** `group` is the window `w` of the pieces: it stops only when full, and
      fits if the pieces fit. */
  ghost predicate IsWindow(pieces: seq<Piece>, group: seq<Piece>, w: Window, budget: Budget)
  {
    && w.0 < w.1 <= |pieces| && group == pieces[w.0..w.1]
    && Full(pieces, group, w.1, budget)
    && (AllPiecesFit(pieces, budget) ==> Sum(Tokens(), group) <= budget.bodyMax)
  }

  /** The pieces from `from` on may be repeated in front of the piece `i`. */
  ghost predicate MayRepeat(pieces: seq<Piece>, from: nat, i: nat, budget: Budget)
  {
    from <= i < |pieces| && Sum(Tokens(), pieces[from..i]) <= budget.overlap &&
    Sum(Tokens(), pieces[from..i]) + pieces[i].tokens <= budget.bodyMax
  }

  /** A window that starts at `start` repeats as much before the piece `i` as it
      may, and nothing when no overlap is configured. */
  ghost predicate LongestOverlap(pieces: seq<Piece>, start: nat, i: nat, budget: Budget)
  {
    if budget.overlap > 0 then
      (start < i ==> MayRepeat(pieces, start, i, budget)) && (start > 0 ==> !MayRepeat(pieces, start - 1, i, budget))
    else start == i
  }

  /** The next window starts and ends later, leaves no gap and repeats at most
      `overlap` tokens, but as many as it may. */
  ghost predicate Advances(pieces: seq<Piece>, v: Window, w: Window, budget: Budget)
  {
    v.0 < w.0 <= v.1 < w.1 <= |pieces| && LongestOverlap(pieces, w.0, v.1, budget)
  }

  ghost predicate AreWindows(
    pieces: seq<Piece>, groups: seq<seq<Piece>>, windows: seq<Window>, budget: Budget, end: nat)
  {
    && |groups| == |windows|
    && (forall k :: 0 <= k < |groups| ==> IsWindow(pieces, groups[k], windows[k], budget))
    && (forall k :: 0 <= k < |groups| - 1 ==> Advances(pieces, windows[k], windows[k + 1], budget))
    && (if windows == [] then end == 0 else windows[0].0 == 0 && windows[|windows| - 1].1 == end)
  }

  // ---- one window -------------------------------------------------------------------

  /** Where the overlap starts: the longest suffix of the previous group within
      the overlap that leaves room for the next piece. */
  method SeedFrom(prev: seq<Piece>, next: nat, budget: Budget) returns (from: nat)
    ensures from <= |prev|
    ensures from < |prev| ==> Sum(Tokens(), prev[from..]) <= budget.overlap
    ensures from < |prev| ==> Sum(Tokens(), prev[from..]) + next <= budget.bodyMax
    ensures from > 0 ==> Sum(Tokens(), prev[from - 1..]) > budget.overlap ||
                         Sum(Tokens(), prev[from - 1..]) + next > budget.bodyMax
  {
    from := |prev|;
    var seedTokens := 0;
    assert prev[|prev|..] == [];
    while from > 0
      invariant from <= |prev| && seedTokens == Sum(Tokens(), prev[from..])
      invariant from < |prev| ==> seedTokens <= budget.overlap && seedTokens + next <= budget.bodyMax
    {
      var p := prev[from - 1];
      assert prev[from - 1..] == [p] + prev[from..];
      SumAppend(Tokens(), [p], prev[from..]);
      SumOne(Tokens(), p);
      if seedTokens + p.tokens > budget.overlap || seedTokens + p.tokens + next > budget.bodyMax {
        return;
      }
      from, seedTokens := from - 1, seedTokens + p.tokens;
    }
  }

  lemma OneMorePiece(pieces: seq<Piece>, start: nat, i: nat)
    requires start <= i < |pieces|
    ensures Sum(Tokens(), pieces[start..i + 1]) == Sum(Tokens(), pieces[start..i]) + pieces[i].tokens
  {
    assert pieces[start..i + 1] == pieces[start..i] + [pieces[i]];
    SumSnoc(Tokens(), pieces[start..i], pieces[i]);
  }

  /** Fills a group from the seed `pieces[start..i]` on; it always takes the
      piece `i` and stops when full. */
  method Fill(pieces: seq<Piece>, start: nat, i: nat, budget: Budget) returns (end: nat)
    requires start <= i < |pieces|
    requires AllPiecesFit(pieces, budget) ==>
      Sum(Tokens(), pieces[start..i]) + pieces[i].tokens <= budget.bodyMax
    ensures i < end <= |pieces| && IsWindow(pieces, pieces[start..end], (start, end), budget)
  {
    OneMorePiece(pieces, start, i);
    var current := Sum(Tokens(), pieces[start..i]) + pieces[i].tokens;
    end := i + 1;
    while end < |pieces| && current < budget.bodyMax
      invariant i < end <= |pieces| && current == Sum(Tokens(), pieces[start..end])
      invariant AllPiecesFit(pieces, budget) ==> current <= budget.bodyMax
    {
      if current + pieces[end].tokens > budget.bodyMax {
        return;
      }
      OneMorePiece(pieces, start, end);
      current := current + pieces[end].tokens;
      end := end + 1;
    }
  }

  /** A window that was full cannot be repeated whole by the next one. */
  lemma OverlapIsProper(pieces: seq<Piece>, group: seq<Piece>, v: Window, from: nat, budget: Budget)
    requires budget.Valid() && IsWindow(pieces, group, v, budget) && v.1 < |pieces| && from <= |group|
    requires from < |group| ==> Sum(Tokens(), group[from..]) <= budget.overlap
    requires from < |group| ==> Sum(Tokens(), group[from..]) + pieces[v.1].tokens <= budget.bodyMax
    ensures from > 0
  {
    assert group[0..] == group;
  }

  /** The longest suffix of the previous window is the longest overlap. */
  lemma SuffixIsLongest(pieces: seq<Piece>, prev: seq<Piece>, v: Window, from: nat, budget: Budget)
    requires v.0 < v.1 < |pieces| && prev == pieces[v.0..v.1] && 0 < from <= |prev| && budget.overlap > 0
    requires from < |prev| ==> Sum(Tokens(), prev[from..]) <= budget.overlap
    requires from < |prev| ==> Sum(Tokens(), prev[from..]) + pieces[v.1].tokens <= budget.bodyMax
    requires Sum(Tokens(), prev[from - 1..]) > budget.overlap ||
             Sum(Tokens(), prev[from - 1..]) + pieces[v.1].tokens > budget.bodyMax
    ensures LongestOverlap(pieces, v.0 + from, v.1, budget)
  {
  }

  /** Where the next window starts: at the overlap with the previous one. */
  method NextStart(pieces: seq<Piece>, prev: seq<Piece>, ghost v: Window, i: nat, budget: Budget) returns (start: nat)
    requires budget.Valid() && i < |pieces| && IsWindow(pieces, prev, v, budget) && v.1 == i
    ensures v.0 < start <= i && LongestOverlap(pieces, start, i, budget)
    ensures start < i ==> Sum(Tokens(), pieces[start..i]) + pieces[i].tokens <= budget.bodyMax
  {
    if budget.overlap <= 0 {
      return i;
    }
    var from := SeedFrom(prev, pieces[i].tokens, budget);
    OverlapIsProper(pieces, prev, v, from, budget);
    SuffixIsLongest(pieces, prev, v, from, budget);
    start := i - |prev[from..]|;
    assert start == v.0 + from;
  }

  lemma OneMoreWindow(
    pieces: seq<Piece>, groups: seq<seq<Piece>>, windows: seq<Window>, budget: Budget, i: nat, group: seq<Piece>,
    w: Window)
    requires AreWindows(pieces, groups, windows, budget, i) && IsWindow(pieces, group, w, budget)
    requires if windows == [] then w.0 == 0 else Advances(pieces, windows[|windows| - 1], w, budget)
    ensures AreWindows(pieces, groups + [group], windows + [w], budget, w.1)
  {
  }

  /** Packs the pieces into windows: contiguous, strictly advancing, full,
      overlapping by at most the configured tokens. */
  method PackPieces(pieces: seq<Piece>, budget: Budget) returns (groups: seq<seq<Piece>>, ghost windows: seq<Window>)
    requires budget.Valid()
    ensures AreWindows(pieces, groups, windows, budget, |pieces|)
  {
    groups, windows := [], [];
    var i := 0;
    while i < |pieces|
      invariant i <= |pieces| && AreWindows(pieces, groups, windows, budget, i)
      decreases |pieces| - i
    {
      var start := i;
      if groups != [] {
        start := NextStart(pieces, groups[|groups| - 1], windows[|windows| - 1], i, budget);
      }
      assert pieces[i..i] == [];
      var end := Fill(pieces, start, i, budget);
      OneMoreWindow(pieces, groups, windows, budget, i, pieces[start..end], (start, end));
      groups, windows, i := groups + [pieces[start..end]], windows + [(start, end)], end;
    }
  }

  // ---- what windows mean ------------------------------------------------------------------

  /** Where the first `k` windows end. */
  function EndOf(windows: seq<Window>, k: nat): nat
    requires k <= |windows|
  {
    if k == 0 then 0 else windows[k - 1].1
  }

  function Between(pieces: seq<Piece>, from: nat, to: nat): seq<Piece>
  {
    if from <= to <= |pieces| then pieces[from..to] else []
  }

  /** What each of the first `k` windows adds to the ones before it. */
  function NewParts(pieces: seq<Piece>, windows: seq<Window>, k: nat): seq<seq<Piece>>
    requires k <= |windows|
  {
    if k == 0 then []
    else NewParts(pieces, windows, k - 1) + [Between(pieces, EndOf(windows, k - 1), EndOf(windows, k))]
  }

  lemma EndsAdvance(pieces: seq<Piece>, groups: seq<seq<Piece>>, windows: seq<Window>, budget: Budget, end: nat, k: nat)
    requires AreWindows(pieces, groups, windows, budget, end) && 0 < k <= |windows|
    ensures EndOf(windows, k - 1) < EndOf(windows, k) <= |pieces|
  {
  }

  lemma {:induction false} NewPartsUpTo(pieces: seq<Piece>, windows: seq<Window>, k: nat)
    requires k <= |windows|
    requires forall n :: 0 < n <= |windows| ==> EndOf(windows, n - 1) < EndOf(windows, n) <= |pieces|
    ensures EndOf(windows, k) <= |pieces|
    ensures Flatten(NewParts(pieces, windows, k)) == pieces[..EndOf(windows, k)]
  {
    if k > 0 {
      NewPartsUpTo(pieces, windows, k - 1);
      var from, to := EndOf(windows, k - 1), EndOf(windows, k);
      FlattenSnoc(NewParts(pieces, windows, k - 1), pieces[from..to]);
      assert pieces[..from] + pieces[from..to] == pieces[..to];
    }
  }

  /** Without what they repeat, the windows are the pieces: nothing is lost,
      duplicated or reordered. */
  lemma NewPartsAreThePieces(pieces: seq<Piece>, groups: seq<seq<Piece>>, windows: seq<Window>, budget: Budget)
    requires AreWindows(pieces, groups, windows, budget, |pieces|)
    ensures Flatten(NewParts(pieces, windows, |windows|)) == pieces
  {
    forall n | 0 < n <= |windows|
      ensures EndOf(windows, n - 1) < EndOf(windows, n) <= |pieces|
    {
      EndsAdvance(pieces, groups, windows, budget, |pieces|, n);
    }
    NewPartsUpTo(pieces, windows, |windows|);
    assert pieces[..|pieces|] == pieces;
  }

  lemma {:induction false} NewPartAt(pieces: seq<Piece>, windows: seq<Window>, n: nat, k: nat)
    requires k < n <= |windows|
    ensures |NewParts(pieces, windows, n)| == n
    ensures NewParts(pieces, windows, n)[k] == Between(pieces, EndOf(windows, k), EndOf(windows, k + 1))
    decreases n
  {
    if k < n - 1 {
      NewPartAt(pieces, windows, n - 1, k);
    } else if n > 1 {
      NewPartAt(pieces, windows, n - 1, 0);
    }
  }

  /** What the window `k` repeats of the ones before it. */
  function Repeated(pieces: seq<Piece>, windows: seq<Window>, k: nat): seq<Piece>
    requires k < |windows|
  {
    Between(pieces, windows[k].0, EndOf(windows, k))
  }

  /** The group repeats no more than the overlap, and then adds something. */
  ghost predicate RepeatsAndAdds(group: seq<Piece>, repeated: seq<Piece>, added: seq<Piece>, overlap: int)
  {
    && group == repeated + added && added != []
    && (if overlap > 0 then Sum(Tokens(), repeated) <= overlap else repeated == [])
  }

  lemma WindowRepeatsAndAdds(
    pieces: seq<Piece>, groups: seq<seq<Piece>>, windows: seq<Window>, budget: Budget, k: nat)
    requires AreWindows(pieces, groups, windows, budget, |pieces|) && k < |groups|
    ensures RepeatsAndAdds(groups[k], Repeated(pieces, windows, k),
                           Between(pieces, EndOf(windows, k), EndOf(windows, k + 1)), budget.overlap)
  {
    assert IsWindow(pieces, groups[k], windows[k], budget);
    var w := windows[k];
    if k > 0 {
      assert IsWindow(pieces, groups[k - 1], windows[k - 1], budget);
      assert Advances(pieces, windows[k - 1], windows[k - 1 + 1], budget);
    }
    var end := EndOf(windows, k);
    assert w.0 <= end < w.1 <= |pieces|;
    assert pieces[w.0..w.1] == pieces[w.0..end] + pieces[end..w.1];
    assert pieces[end..end] == [];
  }

  /** Each window is what it repeats of the one before it, within the overlap, and then what it adds. */
  lemma WindowsRepeatAndAdd(pieces: seq<Piece>, groups: seq<seq<Piece>>, windows: seq<Window>, budget: Budget)
    requires AreWindows(pieces, groups, windows, budget, |pieces|)
    ensures |NewParts(pieces, windows, |windows|)| == |groups|
    ensures forall k :: 0 <= k < |groups| ==>
      RepeatsAndAdds(groups[k], Repeated(pieces, windows, k), NewParts(pieces, windows, |windows|)[k], budget.overlap)
  {
    var added := NewParts(pieces, windows, |windows|);
    if groups != [] { NewPartAt(pieces, windows, |windows|, 0); }
    forall k | 0 <= k < |groups|
      ensures RepeatsAndAdds(groups[k], Repeated(pieces, windows, k), added[k], budget.overlap)
    {
      NewPartAt(pieces, windows, |windows|, k);
      WindowRepeatsAndAdds(pieces, groups, windows, budget, k);
    }
  }

  /** Windows hold pieces. */
  lemma WindowsHoldPieces(pieces: seq<Piece>, groups: seq<seq<Piece>>, windows: seq<Window>, budget: Budget)
    requires AreWindows(pieces, groups, windows, budget, |pieces|)
    ensures NoneEmpty(groups)
  {
    forall k | 0 <= k < |groups|
      ensures groups[k] != []
    {
      assert IsWindow(pieces, groups[k], windows[k], budget);
    }
  }

  // ---- rebalancing ----------------------------------------------------------------------------

  lemma OneMoreOfPrefix(pieces: seq<Piece>, i: nat)
    requires i < |pieces|
    ensures Sum(Tokens(), pieces[..i + 1]) == Sum(Tokens(), pieces[..i]) + pieces[i].tokens
  {
    assert pieces[..i + 1] == pieces[..i] + [pieces[i]];
    SumSnoc(Tokens(), pieces[..i], pieces[i]);
  }

  /** The first part is the longest one, of at least one piece, within half the tokens. */
  ghost predicate IsEvenSplit(pieces: seq<Piece>, first: seq<Piece>, second: seq<Piece>)
  {
    var target := (Sum(Tokens(), pieces) + 1) / 2;
    && first + second == pieces && (pieces != [] ==> first != [])
    && (|first| > 1 ==> Sum(Tokens(), first) <= target)
    && (second != [] ==> Sum(Tokens(), first) + second[0].tokens > target)
  }

  /** How many of the pieces go to the first half. */
  method SplitPoint(pieces: seq<Piece>, target: nat) returns (i: nat)
    ensures i <= |pieces| && (pieces != [] ==> i > 0)
    ensures i > 1 ==> Sum(Tokens(), pieces[..i]) <= target
    ensures i < |pieces| ==> Sum(Tokens(), pieces[..i]) + pieces[i].tokens > target
  {
    var firstTokens := 0;
    i := 0;
    while i < |pieces|
      invariant i <= |pieces| && firstTokens == Sum(Tokens(), pieces[..i])
      invariant i > 1 ==> firstTokens <= target
    {
      if i > 0 && firstTokens + pieces[i].tokens > target {
        return;
      }
      OneMoreOfPrefix(pieces, i);
      firstTokens := firstTokens + pieces[i].tokens;
      i := i + 1;
    }
  }

  /** Splits a group near the middle of its tokens. */
  method SplitEvenly(pieces: seq<Piece>) returns (first: seq<Piece>, second: seq<Piece>)
    ensures IsEvenSplit(pieces, first, second)
  {
    var i := SplitPoint(pieces, (Sum(Tokens(), pieces) + 1) / 2);
    first, second := pieces[..i], pieces[i..];
  }

  ghost predicate GroupsFit(groups: seq<seq<Piece>>, budget: Budget)
  {
    forall k :: 0 <= k < |groups| ==> groups[k] != [] && Sum(Tokens(), groups[k]) <= budget.bodyMax
  }

  lemma Regroup(front: seq<Piece>, a: seq<Piece>, b: seq<Piece>, c: seq<Piece>, d: seq<Piece>, back: seq<Piece>)
    requires a + b == c + d
    ensures front + a + b + back == front + c + d + back
  {
    assert front + a + b == front + (a + b) && front + c + d == front + (c + d);
  }

  lemma FlattenAround(front: seq<seq<Piece>>, a: seq<Piece>, b: seq<Piece>, back: seq<seq<Piece>>)
    ensures Flatten(front + [a] + [b] + back) == Flatten(front) + a + b + Flatten(back)
  {
    FlattenAppend(front + [a] + [b], back);
    FlattenSnoc(front + [a], b);
    FlattenSnoc(front, a);
  }

  /** Replacing two neighbours by two with the same pieces keeps the whole. */
  lemma ReplacePair(groups: seq<seq<Piece>>, i: nat, a: seq<Piece>, b: seq<Piece>)
    requires i + 1 < |groups| && a + b == groups[i] + groups[i + 1]
    ensures Flatten(groups[i := a][i + 1 := b]) == Flatten(groups)
  {
    var front, back := groups[..i], groups[i + 2..];
    assert groups == front + [groups[i]] + [groups[i + 1]] + back;
    assert groups[i := a][i + 1 := b] == front + [a] + [b] + back;
    FlattenAround(front, a, b, back);
    FlattenAround(front, groups[i], groups[i + 1], back);
    Regroup(Flatten(front), a, b, groups[i], groups[i + 1], Flatten(back));
  }

  /** One step over the neighbours `i` and `i + 1`: if one of them is below the
      minimum they are split evenly, unless a half is empty or too large. */
  ghost predicate IsRebalanced(groups: seq<seq<Piece>>, i: nat, budget: Budget, result: seq<seq<Piece>>)
    requires i + 1 < |groups|
  {
    if Sum(Tokens(), groups[i]) >= budget.minTokens && Sum(Tokens(), groups[i + 1]) >= budget.minTokens then
      result == groups
    else exists first, second :: TakesHalves(groups, i, budget, first, second, result)
  }

  ghost predicate TakesHalves(
    groups: seq<seq<Piece>>, i: nat, budget: Budget, first: seq<Piece>, second: seq<Piece>, result: seq<seq<Piece>>)
    requires i + 1 < |groups|
  {
    && IsEvenSplit(groups[i] + groups[i + 1], first, second)
    && result == if first != [] && second != [] && Sum(Tokens(), first) <= budget.bodyMax &&
                    Sum(Tokens(), second) <= budget.bodyMax
                 then groups[i := first][i + 1 := second] else groups
  }

  method Rebalance(groups: seq<seq<Piece>>, i: nat, budget: Budget) returns (result: seq<seq<Piece>>)
    requires i + 1 < |groups|
    ensures IsRebalanced(groups, i, budget, result)
  {
    if Sum(Tokens(), groups[i]) >= budget.minTokens && Sum(Tokens(), groups[i + 1]) >= budget.minTokens {
      return groups;
    }
    var first, second := SplitEvenly(groups[i] + groups[i + 1]);
    result := groups;
    if first != [] && second != [] {
      if Sum(Tokens(), first) <= budget.bodyMax && Sum(Tokens(), second) <= budget.bodyMax {
        result := groups[i := first][i + 1 := second];
      }
    }
    assert TakesHalves(groups, i, budget, first, second, result);
  }

  /** A step keeps the pieces in order, the number of groups and the bound. */
  lemma RebalancedKeeps(groups: seq<seq<Piece>>, i: nat, budget: Budget, result: seq<seq<Piece>>)
    requires i + 1 < |groups| && IsRebalanced(groups, i, budget, result)
    ensures |result| == |groups| && Flatten(result) == Flatten(groups)
    ensures GroupsFit(groups, budget) ==> GroupsFit(result, budget)
  {
    if result != groups {
      var first, second :| TakesHalves(groups, i, budget, first, second, result);
      ReplacePair(groups, i, first, second);
    }
  }

  /** The groups after the steps over the first `n` neighbours. */
  ghost predicate Steps(steps: seq<seq<seq<Piece>>>, n: nat, budget: Budget)
  {
    && |steps| == n + 1
    && forall k :: 0 <= k < n ==> |steps[k]| > k + 1 && IsRebalanced(steps[k], k, budget, steps[k + 1])
  }

  /** What rebalancing every pair of neighbours in turn gives. */
  ghost predicate IsMerged(groups: seq<seq<Piece>>, budget: Budget, result: seq<seq<Piece>>)
  {
    if !budget.mergePeers || |groups| < 2 then result == groups
    else exists steps :: Steps(steps, |groups| - 1, budget) && steps[0] == groups && steps[|groups| - 1] == result
  }

  lemma {:induction false} StepsKeep(steps: seq<seq<seq<Piece>>>, n: nat, budget: Budget)
    requires Steps(steps, n, budget)
    ensures |steps[n]| == |steps[0]| && Flatten(steps[n]) == Flatten(steps[0])
    ensures GroupsFit(steps[0], budget) ==> GroupsFit(steps[n], budget)
  {
    if n > 0 {
      assert Steps(steps[..n], n - 1, budget);
      StepsKeep(steps[..n], n - 1, budget);
      RebalancedKeeps(steps[n - 1], n - 1, budget, steps[n - 1 + 1]);
    }
  }

  /** Rebalancing keeps the pieces in order, the number of groups and the bound. */
  lemma MergedKeeps(groups: seq<seq<Piece>>, budget: Budget, result: seq<seq<Piece>>)
    requires IsMerged(groups, budget, result)
    ensures |result| == |groups| && Flatten(result) == Flatten(groups)
    ensures GroupsFit(groups, budget) ==> GroupsFit(result, budget)
  {
    if budget.mergePeers && |groups| >= 2 {
      var steps :| Steps(steps, |groups| - 1, budget) && steps[0] == groups && steps[|groups| - 1] == result;
      StepsKeep(steps, |groups| - 1, budget);
    }
  }

  /** No group is empty. */
  ghost predicate NoneEmpty(groups: seq<seq<Piece>>)
  {
    forall k :: 0 <= k < |groups| ==> groups[k] != []
  }

  lemma RebalancedNoneEmpty(groups: seq<seq<Piece>>, i: nat, budget: Budget, result: seq<seq<Piece>>)
    requires i + 1 < |groups| && IsRebalanced(groups, i, budget, result) && NoneEmpty(groups)
    ensures NoneEmpty(result)
  {
    if result != groups {
      var first, second :| TakesHalves(groups, i, budget, first, second, result);
    }
  }

  lemma {:induction false} StepsNoneEmpty(steps: seq<seq<seq<Piece>>>, n: nat, budget: Budget)
    requires Steps(steps, n, budget) && NoneEmpty(steps[0])
    ensures NoneEmpty(steps[n])
  {
    if n > 0 {
      assert Steps(steps[..n], n - 1, budget);
      StepsNoneEmpty(steps[..n], n - 1, budget);
      RebalancedNoneEmpty(steps[n - 1], n - 1, budget, steps[n - 1 + 1]);
    }
  }

  /** Rebalancing empties no group. */
  lemma MergedNoneEmpty(groups: seq<seq<Piece>>, budget: Budget, result: seq<seq<Piece>>)
    requires IsMerged(groups, budget, result) && NoneEmpty(groups)
    ensures NoneEmpty(result)
  {
    if budget.mergePeers && |groups| >= 2 {
      var steps :| Steps(steps, |groups| - 1, budget) && steps[0] == groups && steps[|groups| - 1] == result;
      StepsNoneEmpty(steps, |groups| - 1, budget);
    }
  }

  /** Rebalances neighbours of which one is below the minimum. */
  method MergePeers(groups: seq<seq<Piece>>, budget: Budget) returns (result: seq<seq<Piece>>)
    ensures IsMerged(groups, budget, result)
  {
    result := groups;
    if !budget.mergePeers || |groups| < 2 {
      return;
    }
    ghost var steps := [groups];
    for i := 0 to |groups| - 1
      invariant Steps(steps, i, budget) && steps[0] == groups && steps[i] == result && |result| == |groups|
    {
      ghost var before := result;
      result := Rebalance(result, i, budget);
      RebalancedKeeps(before, i, budget, result);
      steps := steps + [result];
    }
  }

  /** Packing and rebalancing keep the bound when every piece fits. */
  lemma WindowsFit(pieces: seq<Piece>, groups: seq<seq<Piece>>, windows: seq<Window>, budget: Budget)
    requires AreWindows(pieces, groups, windows, budget, |pieces|) && AllPiecesFit(pieces, budget)
    ensures GroupsFit(groups, budget)
  {
  }
}
