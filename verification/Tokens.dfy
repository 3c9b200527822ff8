/** Token counting and splitting over an abstract tokenizer: each word is
    encoded on its own, whitespace has no tokens. */
module Tokens {
  import opened Grouping
  import opened Text

  /** Offsets of the tokens of a word, in characters. */
  type Offsets = seq<(nat, nat)>

  /** The model's tokenizer: the token offsets of a word, and the number of
      special tokens added around every sequence. */
  datatype Tokenizer = Tokenizer(encodeWord: string -> Offsets, specialTokens: nat)
  {
    /** Offsets stay inside the word and do not run backwards. */
    ghost predicate Valid()
    {
      forall w :: Ordered(encodeWord(w), |w|)
    }

    /** The token offsets of a text. */
    function Encode(s: string): Offsets
      decreases |s|
    {
      if s == [] then []
      else if IsSpace(s[0]) then Shifted(Encode(s[1..]), 1)
      else
        var n := WordLen(s);
        encodeWord(s[..n]) + Shifted(Encode(s[n..]), n)
    }

    /** The exact number of body tokens. */
    function Count(s: string): nat
    {
      |Encode(s)|
    }
  }

  function Shifted(offsets: Offsets, d: nat): (r: Offsets)
    ensures |r| == |offsets|
    ensures forall i :: 0 <= i < |r| ==> r[i] == (offsets[i].0 + d, offsets[i].1 + d)
  {
    seq(|offsets|, i requires 0 <= i < |offsets| => (offsets[i].0 + d, offsets[i].1 + d))
  }

  ghost predicate Ordered(offsets: Offsets, length: nat)
  {
    && (forall i :: 0 <= i < |offsets| ==> offsets[i].0 <= offsets[i].1 <= length)
    && (forall i, j :: 0 <= i < j < |offsets| ==> offsets[i].1 <= offsets[j].0)
  }

  lemma {:induction false} EncodeOrdered(tok: Tokenizer, s: string)
    requires tok.Valid()
    ensures Ordered(tok.Encode(s), |s|)
    decreases |s|
  {
    if s != [] {
      if IsSpace(s[0]) {
        EncodeOrdered(tok, s[1..]);
      } else {
        var n := WordLen(s);
        EncodeOrdered(tok, s[n..]);
        assert Ordered(tok.encodeWord(s[..n]), n);
      }
    }
  }

  /** The tokens of a list of words. */
  function CountWords(tok: Tokenizer, words: seq<string>): nat
  {
    if words == [] then 0 else |tok.encodeWord(words[0])| + CountWords(tok, words[1..])
  }

  lemma {:induction false} CountIsOverWords(tok: Tokenizer, s: string)
    ensures tok.Count(s) == CountWords(tok, Words(s))
    decreases |s|
  {
    if s != [] {
      if IsSpace(s[0]) { CountIsOverWords(tok, s[1..]); } else { CountIsOverWords(tok, s[WordLen(s)..]); }
    }
  }

  lemma {:induction false} CountWordsAppend(tok: Tokenizer, a: seq<string>, b: seq<string>)
    ensures CountWords(tok, a + b) == CountWords(tok, a) + CountWords(tok, b)
    decreases |a|
  {
    if a == [] {
      assert a + b == b;
    } else {
      assert (a + b)[1..] == a[1..] + b;
      CountWordsAppend(tok, a[1..], b);
    }
  }

  /** Counting is additive over texts joined with whitespace. */
  lemma CountAcross(tok: Tokenizer, a: string, sep: string, b: string)
    requires IsSeparator(sep)
    ensures tok.Count(a + sep + b) == tok.Count(a) + tok.Count(b)
  {
    CountIsOverWords(tok, a + sep + b);
    CountIsOverWords(tok, a);
    CountIsOverWords(tok, b);
    WordsAcrossSeparator(a, sep, b);
    CountWordsAppend(tok, Words(a), Words(b));
  }

  /** A text's weight is its token count. */
  function Weight(tok: Tokenizer): string -> nat
  {
    (s: string) => tok.Count(s)
  }

  lemma {:induction false} CountOfJoin(tok: Tokenizer, parts: seq<string>, sep: string)
    requires IsSeparator(sep)
    ensures tok.Count(Join(parts, sep)) == Sum(Weight(tok), parts)
    decreases |parts|
  {
    if |parts| == 1 {
      assert parts[..0] == [];
    } else if parts != [] {
      CountOfJoin(tok, parts[..|parts| - 1], sep);
      CountAcross(tok, Join(parts[..|parts| - 1], sep), sep, parts[|parts| - 1]);
    }
  }

  // ---- splitting at token offsets -----------------------------------------------------------

  /** A range of tokens: from the first up to, not including, the second. */
  type Range = (nat, nat)

  /** The text of the tokens `start` to `end`. */
  function Slice(s: string, offsets: Offsets, start: nat, end: nat): string
  {
    if start < end <= |offsets| && offsets[start].0 <= offsets[end - 1].1 <= |s|
    then s[offsets[start].0..offsets[end - 1].1] else []
  }

  /** The end of the range that starts at `start`: the longest one up to
      `limit` that fits, at least one token. */
  function RangeEnd(fits: (nat, nat) -> bool, start: nat, limit: nat): (end: nat)
    requires start < limit
    ensures start < end <= limit
    ensures fits(start, end) || end == start + 1
    ensures forall e: nat :: end < e <= limit ==> !fits(start, e)
    decreases limit
  {
    if limit == start + 1 || fits(start, limit) then limit else RangeEnd(fits, start, limit - 1)
  }

  function Limit(start: nat, budget: nat, n: nat): nat
  {
    if start + budget < n then start + budget else n
  }

  /** The token ranges from `start` on. */
  function RangesFrom(fits: (nat, nat) -> bool, start: nat, n: nat, budget: nat): seq<Range>
    requires budget > 0 && start <= n
    decreases n - start
  {
    if start == n then []
    else
      var end := RangeEnd(fits, start, Limit(start, budget, n));
      [(start, end)] + RangesFrom(fits, end, n, budget)
  }

  /** Ranges that follow each other from `start` to `n`. */
  ghost predicate Tiles(ranges: seq<Range>, start: nat, n: nat)
  {
    && (forall k :: 0 <= k < |ranges| ==> ranges[k].0 < ranges[k].1 <= n)
    && (forall k :: 0 <= k < |ranges| - 1 ==> ranges[k].1 == ranges[k + 1].0)
    && (if ranges == [] then start == n else ranges[0].0 == start && ranges[|ranges| - 1].1 == n)
  }

  /** Every range fits or is a single token, and could not have been longer. */
  ghost predicate Maximal(fits: (nat, nat) -> bool, ranges: seq<Range>, n: nat, budget: nat)
  {
    forall k :: 0 <= k < |ranges| ==>
      && ranges[k].1 <= Limit(ranges[k].0, budget, n)
      && (fits(ranges[k].0, ranges[k].1) || ranges[k].1 == ranges[k].0 + 1)
      && (forall e: nat :: ranges[k].1 < e <= Limit(ranges[k].0, budget, n) ==> !fits(ranges[k].0, e))
  }

  lemma {:induction false} RangesTile(fits: (nat, nat) -> bool, start: nat, n: nat, budget: nat)
    requires budget > 0 && start <= n
    ensures Tiles(RangesFrom(fits, start, n, budget), start, n)
    ensures Maximal(fits, RangesFrom(fits, start, n, budget), n, budget)
    decreases n - start
  {
    if start < n {
      RangesTile(fits, RangeEnd(fits, start, Limit(start, budget, n)), n, budget);
    }
  }

  /** There is only one way to tile with ranges that could not be longer. */
  lemma {:induction false} OneTiling(fits: (nat, nat) -> bool, ranges: seq<Range>, start: nat, n: nat, budget: nat)
    requires budget > 0 && start <= n && Tiles(ranges, start, n) && Maximal(fits, ranges, n, budget)
    ensures ranges == RangesFrom(fits, start, n, budget)
    decreases |ranges|
  {
    if ranges != [] {
      var end := RangeEnd(fits, start, Limit(start, budget, n));
      assert ranges[0].1 <= Limit(start, budget, n);
      assert ranges[0].1 == end;
      forall k | 0 <= k < |ranges[1..]| - 1
        ensures ranges[1..][k].1 == ranges[1..][k + 1].0
      {
        assert ranges[k + 1].1 == ranges[k + 1 + 1].0;
      }
      assert ranges == [ranges[0]] + ranges[1..];
      OneTiling(fits, ranges[1..], end, n, budget);
    }
  }

  /** Ranges that tile hold every token exactly once. */
  lemma TokenInOneRange(ranges: seq<Range>, n: nat, t: nat)
    requires Tiles(ranges, 0, n) && t < n
    ensures exists k :: 0 <= k < |ranges| && ranges[k].0 <= t < ranges[k].1
    ensures forall j, k :: 0 <= j < k < |ranges| ==>
      !(ranges[j].0 <= t < ranges[j].1 && ranges[k].0 <= t < ranges[k].1)
  {
    var k := 0;
    while ranges[k].1 <= t
      invariant 0 <= k < |ranges| && ranges[k].0 <= t
      decreases |ranges| - k
    {
      k := k + 1;
    }
    assert ranges[k].0 <= t < ranges[k].1;
    forall i, j | 0 <= i < j < |ranges|
      ensures ranges[i].1 <= ranges[j].0
    {
      RangesAscend(ranges, 0, n, i, j);
    }
  }

  lemma {:induction false} RangesAscend(ranges: seq<Range>, start: nat, n: nat, j: nat, k: nat)
    requires Tiles(ranges, start, n) && j < k < |ranges|
    ensures ranges[j].1 <= ranges[k].0
    decreases k
  {
    assert ranges[k - 1].1 == ranges[k - 1 + 1].0;
    if j < k - 1 {
      RangesAscend(ranges, start, n, j, k - 1);
    }
  }

  /** The texts of the ranges, without empty ones. */
  function Texts(slice: (nat, nat) -> string, ranges: seq<Range>): seq<string>
  {
    if ranges == [] then []
    else
      var piece := slice(ranges[0].0, ranges[0].1);
      (if piece == [] then [] else [piece]) + Texts(slice, ranges[1..])
  }

  function SliceOf(s: string, offsets: Offsets): (nat, nat) -> string
  {
    (start: nat, end: nat) => Slice(s, offsets, start, end)
  }

  function FitsIn(tok: Tokenizer, s: string, offsets: Offsets, budget: nat): (nat, nat) -> bool
  {
    (start: nat, end: nat) => tok.Count(Slice(s, offsets, start, end)) <= budget
  }

  /** The token ranges an oversized text is cut into. */
  function RangesOf(tok: Tokenizer, s: string, budget: nat): seq<Range>
    requires budget > 0
  {
    RangesFrom(FitsIn(tok, s, tok.Encode(s), budget), 0, tok.Count(s), budget)
  }

  /** The pieces of a text: itself if it fits, otherwise slices at token offsets. */
  function Pieces(tok: Tokenizer, s: string, budget: nat): seq<string>
    requires budget > 0
  {
    if s == [] then []
    else if tok.Count(s) <= budget then [s]
    else Texts(SliceOf(s, tok.Encode(s)), RangesOf(tok, s, budget))
  }

  /** An oversized text is cut so that every token is in exactly one piece and
      every piece fits or is a single token. */
  lemma PiecesTile(tok: Tokenizer, s: string, budget: nat)
    requires budget > 0
    ensures Tiles(RangesOf(tok, s, budget), 0, tok.Count(s))
    ensures Maximal(FitsIn(tok, s, tok.Encode(s), budget), RangesOf(tok, s, budget), tok.Count(s), budget)
  {
    RangesTile(FitsIn(tok, s, tok.Encode(s), budget), 0, tok.Count(s), budget);
  }

  /** `pieces` show `s`: as it is if it fits, otherwise cut at ranges that tile
      its tokens; only empty texts are left out. */
  ghost predicate ShowText(tok: Tokenizer, s: string, budget: nat, pieces: seq<string>)
  {
    if tok.Count(s) <= budget then pieces == if s == [] then [] else [s]
    else exists ranges :: CutAt(tok, s, budget, ranges, pieces)
  }

  ghost predicate CutAt(tok: Tokenizer, s: string, budget: nat, ranges: seq<Range>, pieces: seq<string>)
  {
    && Tiles(ranges, 0, tok.Count(s)) && Maximal(FitsIn(tok, s, tok.Encode(s), budget), ranges, tok.Count(s), budget)
    && pieces == Texts(SliceOf(s, tok.Encode(s)), ranges)
  }

  /** The pieces of a text are the only ones that show it. */
  lemma PiecesShowText(tok: Tokenizer, s: string, budget: nat, pieces: seq<string>)
    requires budget > 0
    ensures ShowText(tok, s, budget, pieces) <==> pieces == Pieces(tok, s, budget)
  {
    PiecesTile(tok, s, budget);
    if tok.Count(s) > budget {
      assert CutAt(tok, s, budget, RangesOf(tok, s, budget), Pieces(tok, s, budget));
      forall ranges | CutAt(tok, s, budget, ranges, pieces)
        ensures pieces == Pieces(tok, s, budget)
      {
        OneTiling(FitsIn(tok, s, tok.Encode(s), budget), ranges, 0, tok.Count(s), budget);
      }
    }
  }

  lemma {:induction false} TextOfRange(slice: (nat, nat) -> string, ranges: seq<Range>, p: string)
    requires p in Texts(slice, ranges)
    ensures exists k :: 0 <= k < |ranges| && p == slice(ranges[k].0, ranges[k].1)
  {
    if p != slice(ranges[0].0, ranges[0].1) {
      TextOfRange(slice, ranges[1..], p);
      var k :| 0 <= k < |ranges[1..]| && p == slice(ranges[1..][k].0, ranges[1..][k].1);
      assert ranges[k + 1] == ranges[1..][k];
    }
  }

  lemma {:induction false} RangeHasText(slice: (nat, nat) -> string, ranges: seq<Range>)
    ensures Texts(slice, ranges) == [] <==> forall k :: 0 <= k < |ranges| ==> slice(ranges[k].0, ranges[k].1) == []
  {
    if ranges != [] {
      RangeHasText(slice, ranges[1..]);
      assert forall k :: 1 <= k < |ranges| ==> ranges[k] == ranges[1..][k - 1];
    }
  }

  /** A text without pieces: an empty one, or one that is cut where no range has text. */
  predicate HasNoPiece(tok: Tokenizer, s: string, budget: nat)
    requires budget > 0
  {
    s == [] || (tok.Count(s) > budget &&
      var ranges := RangesOf(tok, s, budget);
      forall k :: 0 <= k < |ranges| ==> Slice(s, tok.Encode(s), ranges[k].0, ranges[k].1) == [])
  }

  lemma NoPieceIff(tok: Tokenizer, s: string, budget: nat)
    requires budget > 0
    ensures Pieces(tok, s, budget) == [] <==> HasNoPiece(tok, s, budget)
  {
    if s != [] && tok.Count(s) > budget {
      var slice, ranges := SliceOf(s, tok.Encode(s)), RangesOf(tok, s, budget);
      RangeHasText(slice, ranges);
      assert forall k :: 0 <= k < |ranges| ==>
        slice(ranges[k].0, ranges[k].1) == Slice(s, tok.Encode(s), ranges[k].0, ranges[k].1);
    }
  }

  lemma SliceAroundToken(s: string, offsets: Offsets, start: nat, end: nat, t: nat)
    requires Ordered(offsets, |s|) && start <= t < end <= |offsets| && offsets[t].0 < offsets[t].1
    ensures Slice(s, offsets, start, end) != []
  {
    assert offsets[start].0 <= offsets[t].0 && offsets[t].1 <= offsets[end - 1].1;
  }

  /** A text with a token that is not zero characters wide has a piece. */
  lemma VisibleTextHasPiece(tok: Tokenizer, s: string, budget: nat, t: nat)
    requires tok.Valid() && budget > 0 && t < tok.Count(s) && tok.Encode(s)[t].0 < tok.Encode(s)[t].1
    ensures !HasNoPiece(tok, s, budget)
  {
    EncodeOrdered(tok, s);
    if tok.Count(s) > budget {
      var ranges := RangesOf(tok, s, budget);
      PiecesTile(tok, s, budget);
      TokenInOneRange(ranges, tok.Count(s), t);
      var k :| 0 <= k < |ranges| && ranges[k].0 <= t < ranges[k].1;
      SliceAroundToken(s, tok.Encode(s), ranges[k].0, ranges[k].1, t);
    }
  }

  /** A piece that cannot be cut further: one token of the text, or no more than that. */
  predicate IsUncuttable(tok: Tokenizer, s: string, p: string)
  {
    tok.Count(p) <= 1 || exists t, e | 0 <= t < tok.Count(s) && e == t + 1 :: p == Slice(s, tok.Encode(s), t, e)
  }

  /** Every piece fits the budget or cannot be cut further. */
  lemma PieceFitsOrIsUncuttable(tok: Tokenizer, s: string, budget: nat, p: string)
    requires budget > 0 && p in Pieces(tok, s, budget)
    ensures tok.Count(p) <= budget || IsUncuttable(tok, s, p)
  {
    if tok.Count(s) > budget {
      var ranges := RangesOf(tok, s, budget);
      PiecesTile(tok, s, budget);
      TextOfRange(SliceOf(s, tok.Encode(s)), ranges, p);
      var k :| 0 <= k < |ranges| && p == Slice(s, tok.Encode(s), ranges[k].0, ranges[k].1);
      if !FitsIn(tok, s, tok.Encode(s), budget)(ranges[k].0, ranges[k].1) {
      }
    }
  }

  /** The text of token `i` fits on its own. */
  predicate TokenFits(tok: Tokenizer, s: string, budget: nat, i: nat)
  {
    FitsIn(tok, s, tok.Encode(s), budget)(i, i + 1)
  }

  ghost predicate NoOversizedToken(tok: Tokenizer, s: string, budget: nat)
  {
    forall i: nat :: i < tok.Count(s) ==> TokenFits(tok, s, budget, i)
  }

  lemma {:induction false} TextsFit(
    tok: Tokenizer, s: string, offsets: Offsets, budget: nat, ranges: seq<Range>)
    requires forall k :: 0 <= k < |ranges| ==> FitsIn(tok, s, offsets, budget)(ranges[k].0, ranges[k].1)
    ensures forall p :: p in Texts(SliceOf(s, offsets), ranges) ==> tok.Count(p) <= budget
  {
    if ranges != [] {
      TextsFit(tok, s, offsets, budget, ranges[1..]);
    }
  }

  lemma RangesFit(fits: (nat, nat) -> bool, ranges: seq<Range>, n: nat, budget: nat)
    requires Tiles(ranges, 0, n) && Maximal(fits, ranges, n, budget)
    requires forall i: nat, e: nat :: i < n && e == i + 1 ==> fits(i, e)
    ensures forall k :: 0 <= k < |ranges| ==> fits(ranges[k].0, ranges[k].1)
  {
  }

  /** Unless a single token is oversized, every piece fits the budget. */
  lemma PiecesFit(tok: Tokenizer, s: string, budget: nat)
    requires budget > 0 && NoOversizedToken(tok, s, budget)
    ensures forall p :: p in Pieces(tok, s, budget) ==> tok.Count(p) <= budget
  {
    PiecesTile(tok, s, budget);
    var offsets, ranges := tok.Encode(s), RangesOf(tok, s, budget);
    forall i: nat, e: nat | i < tok.Count(s) && e == i + 1
      ensures FitsIn(tok, s, offsets, budget)(i, e)
    {
      assert TokenFits(tok, s, budget, i);
    }
    RangesFit(FitsIn(tok, s, offsets, budget), ranges, tok.Count(s), budget);
    TextsFit(tok, s, offsets, budget, ranges);
  }

  /** The end of the range that starts at `start`. */
  method Shrink(tok: Tokenizer, s: string, offsets: Offsets, start: nat, limit: nat, budget: nat) returns (end: nat)
    requires start < limit <= |offsets| && Ordered(offsets, |s|)
    ensures end == RangeEnd(FitsIn(tok, s, offsets, budget), start, limit)
  {
    ghost var fits := FitsIn(tok, s, offsets, budget);
    end := limit;
    while end > start + 1
      invariant start < end <= limit
      invariant RangeEnd(fits, start, limit) == RangeEnd(fits, start, end)
    {
      if tok.Count(s[offsets[start].0..offsets[end - 1].1]) <= budget {
        assert fits(start, end);
        return;
      }
      assert !fits(start, end);
      end := end - 1;
    }
  }

  lemma OneMoreRange(slice: (nat, nat) -> string, fits: (nat, nat) -> bool, start: nat, n: nat, budget: nat)
    requires budget > 0 && start < n
    ensures var end := RangeEnd(fits, start, Limit(start, budget, n));
      Texts(slice, RangesFrom(fits, start, n, budget)) ==
      (if slice(start, end) == [] then [] else [slice(start, end)]) + Texts(slice, RangesFrom(fits, end, n, budget))
  {
  }

  /** Cuts the text range by range. */
  method SplitAt(tok: Tokenizer, s: string, offsets: Offsets, budget: nat) returns (pieces: seq<string>)
    requires Ordered(offsets, |s|) && budget > 0
    ensures pieces == Texts(SliceOf(s, offsets), RangesFrom(FitsIn(tok, s, offsets, budget), 0, |offsets|, budget))
  {
    pieces := [];
    var n, start := |offsets|, 0;
    ghost var slice, fits := SliceOf(s, offsets), FitsIn(tok, s, offsets, budget);
    ghost var all := Texts(slice, RangesFrom(fits, 0, n, budget));
    ghost var rest := all;
    while start < n
      invariant start <= n && rest == Texts(slice, RangesFrom(fits, start, n, budget))
      invariant pieces + rest == all
    {
      var end := Shrink(tok, s, offsets, start, if start + budget < n then start + budget else n, budget);
      OneMoreRange(slice, fits, start, n, budget);
      var piece := Slice(s, offsets, start, end);
      ghost var after := Texts(slice, RangesFrom(fits, end, n, budget));
      MovePiece(pieces, piece, after);
      if piece != [] {
        pieces := pieces + [piece];
      }
      start, rest := end, after;
    }
  }

  lemma MovePiece(pieces: seq<string>, piece: string, after: seq<string>)
    ensures pieces + ((if piece == [] then [] else [piece]) + after)
      == (if piece == [] then pieces else pieces + [piece]) + after
  {
  }

  /** Splits at token offsets into slices of `s` that fit `budget` (a single
      oversized token still advances). */
  method Split(tok: Tokenizer, s: string, budget: nat) returns (pieces: seq<string>)
    requires tok.Valid() && budget > 0
    ensures pieces == Pieces(tok, s, budget)
  {
    EncodeOrdered(tok, s);
    if s == [] {
      return [];
    }
    var offsets := tok.Encode(s);
    if |offsets| <= budget {
      return [s];
    }
    pieces := SplitAt(tok, s, offsets, budget);
  }
}
