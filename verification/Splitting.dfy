/** Splitting a text into pieces within a token budget: sentences, then words,
    then slices of a single oversized word; re-packed greedily. */
module Splitting {
  import opened Grouping
  import opened Text
  import opened Tokens

  predicate EndsSentence(c: char)
  {
    c == '.' || c == '!' || c == '?'
  }

  /** Every sentence but the last ends with a full stop, an exclamation or a question mark. */
  ghost predicate AreSentences(parts: seq<string>)
  {
    forall k :: 0 <= k < |parts| - 1 ==> parts[k] != [] && parts[k][|parts[k]| - 1] in ".!?"
  }

  /** No sentence end followed by whitespace. */
  ghost predicate NoBreakInside(part: string)
  {
    forall k :: 0 <= k < |part| - 1 ==> !(part[k] in ".!?" && IsSpace(part[k + 1]))
  }

  lemma OneMorePart(parts: seq<string>, part: string)
    ensures WordsOfAll(parts + [part]) == WordsOfAll(parts) + Words(part)
  {
    assert (parts + [part])[..|parts|] == parts;
  }

  lemma WordsAcrossGap(s: string, start: nat, i: nat, end: nat)
    requires start <= i < end <= |s| && IsBlank(s[i..end])
    ensures Words(s[start..]) == Words(s[start..i]) + Words(s[end..])
  {
    assert s[start..] == s[start..i] + s[i..end] + s[end..];
    WordsAcrossSeparator(s[start..i], s[i..end], s[end..]);
  }

  /** The end of the whitespace that starts at `i`. */
  method SkipSpace(s: string, i: nat) returns (end: nat)
    requires i < |s| && IsSpace(s[i]) && !IsSpace(s[|s| - 1])
    ensures i < end < |s| && IsBlank(s[i..end]) && !IsSpace(s[end])
  {
    end := i + 1;
    while end < |s| && IsSpace(s[end])
      invariant i < end < |s| && IsBlank(s[i..end])
    {
      assert s[i..end + 1] == s[i..end] + [s[end]];
      end := end + 1;
    }
  }

  /** The words before `start` are those of `parts`. */
  ghost predicate TakenUpTo(parts: seq<string>, s: string, start: nat)
    requires start <= |s|
  {
    WordsOfAll(parts) + Words(s[start..]) == Words(s)
  }

  lemma Regroup(a: seq<string>, b: seq<string>, c: seq<string>)
    ensures a + b + c == a + (b + c)
  {
  }

  lemma TakePart(parts: seq<string>, s: string, start: nat, i: nat, end: nat)
    requires start <= i < end <= |s| && IsBlank(s[i..end]) && TakenUpTo(parts, s, start)
    ensures TakenUpTo(parts + [s[start..i]], s, end)
  {
    var part, rest := s[start..i], s[end..];
    WordsAcrossGap(s, start, i, end);
    OneMorePart(parts, part);
    Regroup(WordsOfAll(parts), Words(part), Words(rest));
  }

  lemma NothingTaken(s: string)
    ensures TakenUpTo([], s, 0)
  {
    assert s[0..] == s;
  }

  ghost predicate Ended(part: string)
  {
    part != [] && part[|part| - 1] in ".!?"
  }

  ghost predicate AllEnded(parts: seq<string>)
  {
    forall p :: p in parts ==> Ended(p)
  }

  lemma EndedThenLast(parts: seq<string>, last: string)
    requires AllEnded(parts) && last != []
    ensures AreSentences(parts + [last]) && forall p :: p in parts + [last] ==> p != []
  {
    forall k | 0 <= k < |parts|
      ensures Ended((parts + [last])[k])
    {
      assert parts[k] in parts;
    }
  }

  ghost predicate AllUnbroken(parts: seq<string>)
  {
    forall p :: p in parts ==> NoBreakInside(p)
  }

  /** The text is read up to `i`; the sentence being read starts at `start`. */
  ghost predicate ReadUpTo(parts: seq<string>, s: string, start: nat, i: nat, ended: bool)
  {
    && start <= i <= |s| && start < |s| && (ended <==> start < i && EndsSentence(s[i - 1]))
    && TakenUpTo(parts, s, start) && AllEnded(parts) && AllUnbroken(parts) && NoBreakInside(s[start..i])
  }

  lemma ReadOneMore(parts: seq<string>, s: string, start: nat, i: nat, ended: bool)
    requires ReadUpTo(parts, s, start, i, ended) && i < |s| && !(IsSpace(s[i]) && ended)
    ensures ReadUpTo(parts, s, start, i + 1, EndsSentence(s[i]))
  {
    assert s[start..i + 1] == s[start..i] + [s[i]];
  }

  lemma TakeSentence(parts: seq<string>, s: string, start: nat, i: nat, end: nat)
    requires ReadUpTo(parts, s, start, i, true) && i < end < |s| && IsBlank(s[i..end])
    ensures ReadUpTo(parts + [s[start..i]], s, end, end, false)
  {
    TakePart(parts, s, start, i, end);
    assert Ended(s[start..i]);
    assert s[end..end] == [];
  }

  lemma TakeLast(parts: seq<string>, s: string, start: nat, ended: bool)
    requires ReadUpTo(parts, s, start, |s|, ended)
    ensures WordsOfAll(parts + [s[start..]]) == Words(s)
    ensures AreSentences(parts + [s[start..]]) && AllUnbroken(parts + [s[start..]])
    ensures forall p :: p in parts + [s[start..]] ==> p != []
  {
    assert s[start..|s|] == s[start..];
    OneMorePart(parts, s[start..]);
    EndedThenLast(parts, s[start..]);
  }

  /** Splits a stripped text after sentence ends followed by whitespace. */
  method SplitStripped(s: string) returns (parts: seq<string>)
    requires s != [] && !IsSpace(s[|s| - 1])
    ensures WordsOfAll(parts) == Words(s)
    ensures AreSentences(parts) && AllUnbroken(parts) && forall p :: p in parts ==> p != []
  {
    parts := [];
    var start, i := 0, 0;
    var ended := false;
    NothingTaken(s);
    while i < |s|
      invariant ReadUpTo(parts, s, start, i, ended)
      decreases |s| - i
    {
      if IsSpace(s[i]) && ended {
        var end := SkipSpace(s, i);
        TakeSentence(parts, s, start, i, end);
        parts := parts + [s[start..i]];
        start, i, ended := end, end, false;
      } else {
        ReadOneMore(parts, s, start, i, ended);
        ended := EndsSentence(s[i]);
        i := i + 1;
      }
    }
    TakeLast(parts, s, start, ended);
    parts := parts + [s[start..]];
  }

  /** Splits after each sentence end followed by whitespace, and nowhere else; no word is lost. */
  method SplitSentences(text: string) returns (parts: seq<string>)
    ensures WordsOfAll(parts) == Words(text)
    ensures AreSentences(parts) && AllUnbroken(parts) && forall p :: p in parts ==> p != []
  {
    var s := Strip(text);
    WordsOfStrip(text);
    if s == [] {
      return [];
    }
    parts := SplitStripped(s);
  }

  // ---- the words of the pieces -------------------------------------------------------

  /** What becomes of a word: itself, or its slices if it is over budget. */
  function ExpandWord(tok: Tokenizer, w: string, budget: nat): seq<string>
    requires budget > 0
  {
    if tok.Count(w) > budget then WordsOfAll(Pieces(tok, w, budget)) else [w]
  }

  function FlatMap(f: string -> seq<string>, words: seq<string>): seq<string>
  {
    if words == [] then [] else FlatMap(f, words[..|words| - 1]) + f(words[|words| - 1])
  }

  lemma {:induction false} FlatMapAppend(f: string -> seq<string>, a: seq<string>, b: seq<string>)
    ensures FlatMap(f, a + b) == FlatMap(f, a) + FlatMap(f, b)
    decreases |b|
  {
    if b == [] {
      assert a + b == a;
    } else {
      assert (a + b)[..|a + b| - 1] == a + b[..|b| - 1];
      FlatMapAppend(f, a, b[..|b| - 1]);
    }
  }

  /** The words a list of words becomes. */
  function Expand(tok: Tokenizer, words: seq<string>, budget: nat): seq<string>
    requires budget > 0
  {
    FlatMap(Expander(tok, budget), words)
  }

  function Expander(tok: Tokenizer, budget: nat): string -> seq<string>
    requires budget > 0
  {
    w => ExpandWord(tok, w, budget)
  }

  /** Words within the budget stay as they are. */
  lemma {:induction false} ExpandKeepsSmallWords(tok: Tokenizer, words: seq<string>, budget: nat)
    requires budget > 0 && forall w :: w in words ==> tok.Count(w) <= budget
    ensures Expand(tok, words, budget) == words
    decreases |words|
  {
    if words != [] {
      ExpandKeepsSmallWords(tok, words[..|words| - 1], budget);
      assert words[|words| - 1] in words;
    }
  }

  lemma {:induction false} WordsOfWords(words: seq<string>)
    requires forall w :: w in words ==> IsWord(w)
    ensures WordsOfAll(words) == words
    decreases |words|
  {
    if words != [] {
      WordsOfWords(words[..|words| - 1]);
      WordsOfWord(words[|words| - 1]);
    }
  }

  lemma {:induction false} WordFitsIn(tok: Tokenizer, words: seq<string>, w: string)
    requires w in words && forall v :: v in words ==> IsWord(v)
    ensures tok.Count(w) <= CountWords(tok, words)
    decreases |words|
  {
    CountIsOverWords(tok, w);
    WordsOfWord(w);
    assert [w][1..] == [];
    if w != words[0] {
      WordFitsIn(tok, words[1..], w);
    }
  }

  /** The words of a text that fits all fit. */
  lemma WordsOfFittingText(tok: Tokenizer, s: string, budget: nat)
    requires tok.Count(s) <= budget
    ensures forall w :: w in Words(s) ==> tok.Count(w) <= budget
  {
    WordsAreWords(s);
    CountIsOverWords(tok, s);
    forall w | w in Words(s)
      ensures tok.Count(w) <= budget
    {
      WordFitsIn(tok, Words(s), w);
    }
  }

  lemma FittingTextUnchanged(tok: Tokenizer, s: string, budget: nat)
    requires budget > 0 && tok.Count(s) <= budget
    ensures Expand(tok, Words(s), budget) == Words(s)
  {
    WordsOfFittingText(tok, s, budget);
    ExpandKeepsSmallWords(tok, Words(s), budget);
  }

  /** Oversized words have no token that is oversized on its own. */
  ghost predicate Splittable(tok: Tokenizer, words: seq<string>, budget: nat)
  {
    forall w :: w in words && tok.Count(w) > budget ==> NoOversizedToken(tok, w, budget)
  }

  ghost predicate AllFit(tok: Tokenizer, pieces: seq<string>, budget: nat)
  {
    forall p :: p in pieces ==> tok.Count(p) <= budget
  }

  // ---- words of one oversized sentence --------------------------------------------------

  /** A buffer of words about to become a piece. */
  ghost predicate IsBuffer(tok: Tokenizer, buf: seq<string>, tokens: nat, budget: nat)
  {
    (forall w :: w in buf ==> IsWord(w)) && Sum(Weight(tok), buf) == tokens <= budget
  }

  lemma BufferIsPiece(tok: Tokenizer, pieces: seq<string>, buf: seq<string>, tokens: nat, budget: nat)
    requires IsBuffer(tok, buf, tokens, budget)
    ensures WordsOfAll(pieces + [Join(buf, " ")]) == WordsOfAll(pieces) + buf
    ensures tok.Count(Join(buf, " ")) <= budget
  {
    OneMorePart(pieces, Join(buf, " "));
    WordsOfJoin(buf, " ");
    WordsOfWords(buf);
    CountOfJoin(tok, buf, " ");
  }

  lemma BufferGrows(tok: Tokenizer, buf: seq<string>, tokens: nat, w: string, budget: nat)
    requires IsBuffer(tok, buf, tokens, budget) && IsWord(w) && tokens + tok.Count(w) <= budget
    ensures IsBuffer(tok, buf + [w], tokens + tok.Count(w), budget)
  {
    SumSnoc(Weight(tok), buf, w);
  }

  /** Closes the buffer, if it holds anything. */
  method CloseBuffer(tok: Tokenizer, pieces: seq<string>, buf: seq<string>, ghost tokens: nat, ghost budget: nat)
    returns (closed: seq<string>)
    requires IsBuffer(tok, buf, tokens, budget)
    ensures WordsOfAll(closed) == WordsOfAll(pieces) + buf
    ensures AllFit(tok, pieces, budget) ==> AllFit(tok, closed, budget)
  {
    closed := pieces;
    if buf != [] {
      BufferIsPiece(tok, pieces, buf, tokens, budget);
      closed := pieces + [Join(buf, " ")];
    }
  }

  lemma OneMoreWord(tok: Tokenizer, words: seq<string>, i: nat, budget: nat)
    requires i < |words| && budget > 0
    ensures Expand(tok, words[..i + 1], budget) == Expand(tok, words[..i], budget) + ExpandWord(tok, words[i], budget)
  {
    assert words[..i + 1] == words[..i] + [words[i]];
    FlatMapAppend(Expander(tok, budget), words[..i], [words[i]]);
    assert [words[i]][..0] == [];
  }

  /** Adds the slices of an oversized word. */
  method SliceWord(tok: Tokenizer, pieces: seq<string>, w: string, budget: nat) returns (more: seq<string>)
    requires tok.Valid() && budget > 0 && tok.Count(w) > budget
    ensures WordsOfAll(more) == WordsOfAll(pieces) + ExpandWord(tok, w, budget)
    ensures AllFit(tok, pieces, budget) && NoOversizedToken(tok, w, budget) ==> AllFit(tok, more, budget)
  {
    var slices := Split(tok, w, budget);
    WordsOfAllAppend(pieces, slices);
    if NoOversizedToken(tok, w, budget) { PiecesFit(tok, w, budget); }
    more := pieces + slices;
  }

  /** Adds a word to the buffer, closing it first when the word does not fit. */
  method AddWord(tok: Tokenizer, pieces: seq<string>, buf: seq<string>, tokens: nat, w: string, budget: nat)
    returns (more: seq<string>, buffer: seq<string>, total: nat)
    requires IsBuffer(tok, buf, tokens, budget) && IsWord(w) && tok.Count(w) <= budget
    ensures IsBuffer(tok, buffer, total, budget)
    ensures WordsOfAll(more) + buffer == WordsOfAll(pieces) + buf + [w]
    ensures AllFit(tok, pieces, budget) ==> AllFit(tok, more, budget)
  {
    more, buffer, total := pieces, buf, tokens;
    if buf != [] && tokens + tok.Count(w) > budget {
      more := CloseBuffer(tok, pieces, buf, tokens, budget);
      buffer, total := [], 0;
    }
    BufferGrows(tok, buffer, total, w, budget);
    Regroup(WordsOfAll(more), buffer, [w]);
    buffer, total := buffer + [w], total + tok.Count(w);
  }

  /** Packs the words of a sentence into pieces; an oversized word is sliced. */
  method SplitWords(tok: Tokenizer, words: seq<string>, budget: nat) returns (pieces: seq<string>)
    requires tok.Valid() && budget > 0 && forall w :: w in words ==> IsWord(w)
    ensures WordsOfAll(pieces) == Expand(tok, words, budget)
    ensures Splittable(tok, words, budget) ==> AllFit(tok, pieces, budget)
  {
    pieces := [];
    var buf: seq<string>, tokens: nat := [], 0;
    for i := 0 to |words|
      invariant IsBuffer(tok, buf, tokens, budget)
      invariant WordsOfAll(pieces) + buf == Expand(tok, words[..i], budget)
      invariant Splittable(tok, words, budget) ==> AllFit(tok, pieces, budget)
    {
      var w := words[i];
      OneMoreWord(tok, words, i, budget);
      if tok.Count(w) > budget {
        pieces := CloseBuffer(tok, pieces, buf, tokens, budget);
        pieces := SliceWord(tok, pieces, w, budget);
        buf, tokens := [], 0;
      } else {
        pieces, buf, tokens := AddWord(tok, pieces, buf, tokens, w, budget);
      }
    }
    assert words[..|words|] == words;
    pieces := CloseBuffer(tok, pieces, buf, tokens, budget);
  }

  // ---- re-packing ------------------------------------------------------------------------

  function Joiner(sep: string): seq<string> -> string
  {
    (parts: seq<string>) => Join(parts, sep)
  }

  /** Joining groups with whitespace keeps the words. */
  lemma {:induction false} WordsOfJoinedGroups(groups: seq<seq<string>>, sep: string)
    requires IsSeparator(sep)
    ensures WordsOfAll(MapGroups(Joiner(sep), groups)) == WordsOfAll(Flatten(groups))
    decreases |groups|
  {
    if groups != [] {
      var front, last := groups[..|groups| - 1], groups[|groups| - 1];
      WordsOfJoinedGroups(front, sep);
      OneMorePart(MapGroups(Joiner(sep), front), Join(last, sep));
      WordsOfJoin(last, sep);
      WordsOfAllAppend(Flatten(front), last);
    }
  }

  /** Joining groups that fit gives texts that fit. */
  lemma {:induction false} JoinedGroupsFit(tok: Tokenizer, groups: seq<seq<string>>, sep: string, budget: nat)
    requires IsSeparator(sep)
    requires forall k :: 0 <= k < |groups| ==> Sum(Weight(tok), groups[k]) <= budget
    ensures AllFit(tok, MapGroups(Joiner(sep), groups), budget)
    decreases |groups|
  {
    if groups != [] {
      JoinedGroupsFit(tok, groups[..|groups| - 1], sep, budget);
      CountOfJoin(tok, groups[|groups| - 1], sep);
    }
  }

  /** No two neighbours would fit together. */
  ghost predicate NoneJoinable(tok: Tokenizer, pieces: seq<string>, budget: nat)
  {
    forall k :: 0 <= k < |pieces| - 1 ==> tok.Count(pieces[k]) + tok.Count(pieces[k + 1]) > budget
  }

  lemma {:induction false} JoinedGroupAt(groups: seq<seq<string>>, sep: string, k: nat)
    requires k < |groups|
    ensures |MapGroups(Joiner(sep), groups)| == |groups|
    ensures MapGroups(Joiner(sep), groups)[k] == Join(groups[k], sep)
    decreases |groups|
  {
    if k < |groups| - 1 {
      JoinedGroupAt(groups[..|groups| - 1], sep, k);
    } else if |groups| > 1 {
      JoinedGroupAt(groups[..|groups| - 1], sep, 0);
    }
  }

  /** After greedy packing no two neighbours fit together. */
  lemma PackedAreNotJoinable(tok: Tokenizer, groups: seq<seq<string>>, items: seq<string>, sep: string, budget: nat)
    requires IsSeparator(sep) && IsPacking(Weight(tok), groups, items, budget)
    ensures NoneJoinable(tok, MapGroups(Joiner(sep), groups), budget)
  {
    var packed := MapGroups(Joiner(sep), groups);
    if groups != [] { JoinedGroupAt(groups, sep, 0); }
    forall k | 0 <= k < |packed| - 1
      ensures tok.Count(packed[k]) + tok.Count(packed[k + 1]) > budget
    {
      JoinedGroupAt(groups, sep, k);
      JoinedGroupAt(groups, sep, k + 1);
      CountOfJoin(tok, groups[k], sep);
      CountOfJoin(tok, groups[k + 1], sep);
      assert GroupFits(Weight(tok), groups[k + 1], budget);
      SumAtLeastFirst(Weight(tok), groups[k + 1]);
    }
  }

  /** Joins neighbouring pieces greedily. */
  method Repack(tok: Tokenizer, pieces: seq<string>, budget: nat)
    returns (packed: seq<string>, ghost groups: seq<seq<string>>)
    ensures IsPacking(Weight(tok), groups, pieces, budget) && packed == MapGroups(Joiner(" "), groups)
  {
    packed, groups := [], [];
    var buf: seq<string>, tokens: nat := [], 0;
    ghost var weight := Weight(tok);
    for i := 0 to |pieces|
      invariant Filling(weight, groups, buf, pieces[..i], budget) && tokens == Sum(weight, buf)
      invariant packed == MapGroups(Joiner(" "), groups)
    {
      var p := pieces[i];
      assert pieces[..i + 1] == pieces[..i] + [p];
      if buf != [] && tokens + tok.Count(p) > budget {
        StartGroup(weight, groups, buf, pieces[..i], budget, p);
        MapGroupsSnoc(Joiner(" "), groups, buf);
        SumOne(weight, p);
        packed, groups := packed + [Join(buf, " ")], groups + [buf];
        buf, tokens := [p], tok.Count(p);
      } else {
        FillGroup(weight, groups, buf, pieces[..i], budget, p);
        SumSnoc(weight, buf, p);
        buf, tokens := buf + [p], tokens + tok.Count(p);
      }
    }
    assert pieces[..|pieces|] == pieces;
    if buf != [] {
      MapGroupsSnoc(Joiner(" "), groups, buf);
      packed, groups := packed + [Join(buf, " ")], groups + [buf];
    }
  }

  // ---- the whole split -----------------------------------------------------------------------

  lemma {:induction false} WordOfPart(parts: seq<string>, i: nat, w: string)
    requires i < |parts| && w in Words(parts[i])
    ensures w in WordsOfAll(parts)
    decreases |parts|
  {
    if i < |parts| - 1 {
      WordOfPart(parts[..|parts| - 1], i, w);
    }
  }

  lemma SplittableSentence(tok: Tokenizer, parts: seq<string>, i: nat, budget: nat)
    requires i < |parts| && Splittable(tok, WordsOfAll(parts), budget)
    ensures Splittable(tok, Words(parts[i]), budget)
  {
    forall w | w in Words(parts[i])
      ensures w in WordsOfAll(parts)
    {
      WordOfPart(parts, i, w);
    }
  }

  lemma OneMoreSentence(tok: Tokenizer, parts: seq<string>, i: nat, budget: nat)
    requires i < |parts| && budget > 0
    ensures Expand(tok, WordsOfAll(parts[..i + 1]), budget)
      == Expand(tok, WordsOfAll(parts[..i]), budget) + Expand(tok, Words(parts[i]), budget)
  {
    assert parts[..i + 1] == parts[..i] + [parts[i]];
    OneMorePart(parts[..i], parts[i]);
    FlatMapAppend(Expander(tok, budget), WordsOfAll(parts[..i]), Words(parts[i]));
  }

  /** The pieces of every sentence, before re-packing. */
  method SplitParts(tok: Tokenizer, parts: seq<string>, budget: nat) returns (pieces: seq<string>)
    requires tok.Valid() && budget > 0
    ensures WordsOfAll(pieces) == Expand(tok, WordsOfAll(parts), budget)
    ensures Splittable(tok, WordsOfAll(parts), budget) ==> AllFit(tok, pieces, budget)
  {
    pieces := [];
    for i := 0 to |parts|
      invariant WordsOfAll(pieces) == Expand(tok, WordsOfAll(parts[..i]), budget)
      invariant Splittable(tok, WordsOfAll(parts), budget) ==> AllFit(tok, pieces, budget)
    {
      OneMoreSentence(tok, parts, i, budget);
      if tok.Count(parts[i]) <= budget {
        FittingTextUnchanged(tok, parts[i], budget);
        OneMorePart(pieces, parts[i]);
        pieces := pieces + [parts[i]];
      } else {
        WordsAreWords(parts[i]);
        if Splittable(tok, WordsOfAll(parts), budget) { SplittableSentence(tok, parts, i, budget); }
        var more := SplitWords(tok, Words(parts[i]), budget);
        WordsOfAllAppend(pieces, more);
        pieces := pieces + more;
      }
    }
    assert parts[..|parts|] == parts;
  }

  /** Splits a text into pieces within the budget: the words stay in order,
      each whole unless it is over budget by itself. */
  method SplitByTokenBudget(tok: Tokenizer, text: string, budget: nat) returns (pieces: seq<string>)
    requires tok.Valid() && budget > 0
    ensures WordsOfAll(pieces) == Expand(tok, Words(text), budget)
    ensures (forall w :: w in Words(text) ==> tok.Count(w) <= budget) ==> WordsOfAll(pieces) == Words(text)
    ensures Splittable(tok, Words(text), budget) ==> AllFit(tok, pieces, budget)
    ensures text != [] && tok.Count(text) <= budget ==> pieces == [text]
    ensures NoneJoinable(tok, pieces, budget)
  {
    if forall w :: w in Words(text) ==> tok.Count(w) <= budget {
      ExpandKeepsSmallWords(tok, Words(text), budget);
    }
    if text == [] {
      return [];
    }
    if tok.Count(text) <= budget {
      WordsOfOne(text);
      FittingTextUnchanged(tok, text, budget);
      return [text];
    }
    var parts := SplitSentences(text);
    var loose := SplitParts(tok, parts, budget);
    ghost var groups;
    pieces, groups := Repack(tok, loose, budget);
    WordsOfJoinedGroups(groups, " ");
    PackedAreNotJoinable(tok, groups, loose, " ", budget);
    if Splittable(tok, Words(text), budget) {
      PackedGroupsFit(Weight(tok), groups, loose, budget);
      JoinedGroupsFit(tok, groups, " ", budget);
    }
  }
}
