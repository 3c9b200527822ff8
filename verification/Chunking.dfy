/** Chunking one run of paragraphs: the header is fitted, the paragraphs are
    split and packed under what the header leaves of the payload budget. */
module Chunking {
  import opened Wrappers
  import opened Grouping
  import opened Text
  import opened Tokens
  import opened Splitting
  import opened Packing

  datatype Config = Config(maxTokens: int, safetyTokens: int, minTokens: int, overlapTokens: int, mergePeers: bool)

  function Max(a: int, b: int): int
  {
    if a > b then a else b
  }

  function Min(a: int, b: int): int
  {
    if a < b then a else b
  }

  /** What one run of paragraphs may spend. */
  datatype Budgeter = Budgeter(tok: Tokenizer, cfg: Config, labels: Labels)
  {
    function PayloadBudget(): int
    {
      cfg.maxTokens - cfg.safetyTokens
    }

    function Available(): int
    {
      PayloadBudget() - tok.specialTokens
    }

    function MinBody(): int
    {
      Max(Min(cfg.minTokens, Available() - 1), 1)
    }

    function HeaderBudget(): int
    {
      Max(Available() - MinBody(), 1)
    }

    function BodyBudget(header: string): (b: Budget)
      ensures b.Valid()
      ensures Available() > tok.Count(header) ==> b.bodyMax + tok.Count(header) == Available()
    {
      var bodyMax := Max(Available() - tok.Count(header), 1);
      Budget(bodyMax, if bodyMax > 1 then Min(cfg.overlapTokens, bodyMax - 1) else 0,
             Min(cfg.minTokens, bodyMax), cfg.mergePeers)
    }
  }

  /** What the budgets are: the payload is the maximum without the safety margin,
      the special tokens aside it is available to header and body; the body is
      promised the minimum, as far as there is room for a header token, and
      the header gets the rest, at least one token. */
  lemma BudgetsAdd(b: Budgeter)
    ensures b.PayloadBudget() + b.cfg.safetyTokens == b.cfg.maxTokens
    ensures b.Available() + b.tok.specialTokens == b.PayloadBudget()
    ensures b.MinBody() >= 1 && (b.MinBody() > 1 ==> b.MinBody() <= b.cfg.minTokens && b.MinBody() < b.Available())
    ensures b.MinBody() == b.cfg.minTokens || b.MinBody() == b.Available() - 1 || b.MinBody() == 1
    ensures b.cfg.minTokens < b.Available() ==> b.cfg.minTokens <= b.MinBody()
    ensures if b.MinBody() < b.Available() then b.HeaderBudget() + b.MinBody() == b.Available()
            else b.HeaderBudget() == 1
  {
  }

  /** A chunk may repeat the configured overlap, but always less than it holds. */
  lemma BodyBudgetMeans(b: Budgeter, header: string)
    ensures
      var budget := b.BodyBudget(header);
      && (b.tok.Count(header) >= b.Available() ==> budget.bodyMax == 1)
      && budget.overlap < budget.bodyMax && (budget.overlap > 0 ==> budget.overlap <= b.cfg.overlapTokens)
      && (budget.bodyMax > 1 ==> budget.overlap == b.cfg.overlapTokens || budget.overlap == budget.bodyMax - 1)
      && budget.minTokens <= b.cfg.minTokens && budget.minTokens <= budget.bodyMax
      && (budget.minTokens == b.cfg.minTokens || budget.minTokens == budget.bodyMax)
      && budget.mergePeers == b.cfg.mergePeers
  {
  }

  // ---- headers -------------------------------------------------------------------------

  datatype LineLabels = LineLabels(document: string, section: string)

  const LABELS: LineLabels := LineLabels("Document: ", "Section: ")

  /** The labels of a header's lines; they end with a space. */
  type Labels = l: LineLabels | BreaksAfter(l.document) && BreaksAfter(l.section) witness LABELS

  function HeaderText(labels: Labels, title: string, segments: seq<string>): string
  {
    Join((if title == [] then [] else [labels.document + title]) +
         (if segments == [] then [] else [labels.section + Join(segments, " > ")]), "\n")
  }

  function ContextualText(header: string, body: string): string
  {
    if header == [] then body else if body == [] then header else header + "\n\n" + body
  }

  function TruncateToTokens(tok: Tokenizer, text: string, budget: int): string
  {
    if budget <= 0 then []
    else if tok.Count(text) <= budget then text
    else if Pieces(tok, text, budget) == [] then [] else Pieces(tok, text, budget)[0]
  }

  /** How headers are made and measured: the text of a header, its tokens, what
      is left of a text that is cut, and the tokens of the two labels. */
  datatype HeaderMaker = HeaderMaker(
    text: (string, seq<string>) -> string, count: string -> nat, cut: (string, int) -> string,
    documentTokens: nat, sectionTokens: nat)
  {
    predicate Fits(title: string, segments: seq<string>, budget: int)
    {
      count(text(title, segments)) <= budget
    }

    /** The first number of leading segments, from `drop` on, whose removal makes the header fit. */
    function FirstFit(title: string, segments: seq<string>, drop: nat, budget: int): (r: Option<nat>)
      requires drop <= |segments|
      ensures r.Some? ==> drop <= r.value < |segments| && Fits(title, segments[r.value..], budget)
      ensures r.Some? ==> forall d :: drop <= d < r.value ==> !Fits(title, segments[d..], budget)
      ensures r.None? ==> forall d :: drop <= d < |segments| ==> !Fits(title, segments[d..], budget)
      decreases |segments| - drop
    {
      if drop == |segments| then None
      else if Fits(title, segments[drop..], budget) then Some(drop)
      else FirstFit(title, segments, drop + 1, budget)
    }

    /** The breadcrumb header within the budget: whole if it fits, else without
        leading segments, else without the title, else truncated. */
    function Fit(title: string, path: seq<string>, budget: int): (string, bool)
    {
      if Fits(title, path, budget) then (text(title, path), false)
      else if |path| > 1 && FirstFit(title, path, 1, budget).Some? then
        (text(title, path[FirstFit(title, path, 1, budget).value..]), true)
      else FitLast(title, if |path| > 1 then path[|path| - 1..] else path, budget)
    }

    /** With at most the deepest segment left. */
    function FitLast(title: string, segments: seq<string>, budget: int): (string, bool)
      requires |segments| <= 1
    {
      if title != [] && Fits("", segments, budget) then (text("", segments), true)
      else if segments != [] then (text("", [cut(segments[0], Max(budget - sectionTokens, 1))]), true)
      else if title != [] then (text(cut(title, Max(budget - documentTokens, 1)), []), true)
      else ([], false)
    }

    /** The title with the path from its `d`-th segment on fits, and with no longer rest of the path. */
    ghost predicate LongestFits(title: string, path: seq<string>, budget: int, d: nat)
      requires d <= |path|
    {
      && count(text(title, path[d..])) <= budget
      && forall e :: 0 <= e < d ==> count(text(title, path[e..])) > budget
    }
  }

  /** The headers of a tokenizer and labels. */
  function MakerOf(tok: Tokenizer, labels: Labels): HeaderMaker
  {
    HeaderMaker((title: string, segments: seq<string>) => HeaderText(labels, title, segments),
                (s: string) => tok.Count(s),
                (s: string, budget: int) => TruncateToTokens(tok, s, budget),
                tok.Count(labels.document), tok.Count(labels.section))
  }

  // ---- what headers say -----------------------------------------------------------------

  /** A line for the title, if there is one, and a line for the path, if there is one. */
  lemma HeaderLines(labels: Labels, title: string, segments: seq<string>)
    ensures title == [] && segments == [] ==> HeaderText(labels, title, segments) == []
    ensures title != [] && segments == [] ==> HeaderText(labels, title, segments) == labels.document + title
    ensures title == [] && segments != [] ==>
      HeaderText(labels, title, segments) == labels.section + Join(segments, " > ")
    ensures title != [] && segments != [] ==>
      HeaderText(labels, title, segments) == labels.document + title + "\n" + (labels.section + Join(segments, " > "))
  {
    var document, section := labels.document + title, labels.section + Join(segments, " > ");
    JoinMeans([document], section, "\n");
    JoinMeans([], document, "\n");
    if title == [] {
      assert [] + [section] == [section];
      JoinMeans([], section, "\n");
    }
  }

  /** A truncated text is the text itself if it fits, else the first of the pieces that show it. */
  lemma TruncatedMeans(tok: Tokenizer, text: string, budget: int)
    ensures budget <= 0 ==> TruncateToTokens(tok, text, budget) == []
    ensures 0 <= tok.Count(text) <= budget && budget > 0 ==> TruncateToTokens(tok, text, budget) == text
    ensures 0 < budget < tok.Count(text) ==>
      exists pieces :: ShowText(tok, text, budget, pieces) &&
        TruncateToTokens(tok, text, budget) == if pieces == [] then [] else pieces[0]
  {
    if 0 < budget < tok.Count(text) {
      PiecesShowText(tok, text, budget, Pieces(tok, text, budget));
    }
  }

  /** The fitted header keeps the title and as much of the end of the path as
      fits, and is reduced unless that is all of it. */
  lemma HeaderKeepsMost(m: HeaderMaker, title: string, path: seq<string>, budget: int, d: nat)
    requires d == 0 || d < |path|
    requires m.LongestFits(title, path, budget, d)
    ensures m.Fit(title, path, budget) == (m.text(title, path[d..]), d > 0)
  {
    assert path[0..] == path;
  }

  /** If no rest of the path fits with the title, the header is the deepest
      segment alone, cut unless it fits without the title. */
  lemma HeaderOfDeepest(m: HeaderMaker, title: string, path: seq<string>, budget: int)
    requires path != []
    requires forall d :: 0 <= d < |path| ==> m.count(m.text(title, path[d..])) > budget
    ensures
      var deepest := path[|path| - 1];
      m.Fit(title, path, budget) ==
      (if title != [] && m.count(m.text("", [deepest])) <= budget then m.text("", [deepest])
       else m.text("", [m.cut(deepest, Max(budget - m.sectionTokens, 1))]), true)
  {
    assert path[0..] == path;
    assert path[|path| - 1..] == [path[|path| - 1]];
  }

  /** Without a path a title that does not fit is cut. */
  lemma HeaderOfTitle(m: HeaderMaker, title: string, budget: int)
    requires title != [] && m.count(m.text(title, [])) > budget
    ensures m.Fit(title, [], budget) ==
      (if m.count(m.text("", [])) <= budget then m.text("", [])
       else m.text(m.cut(title, Max(budget - m.documentTokens, 1)), []), true)
  {
  }

  lemma CountAfterBreak(tok: Tokenizer, a: string, b: string)
    requires BreaksAfter(a)
    ensures tok.Count(a + b) == tok.Count(a) + tok.Count(b)
  {
    WordsOfConcat(a, b);
    CountIsOverWords(tok, a + b);
    CountIsOverWords(tok, a);
    CountIsOverWords(tok, b);
    CountWordsAppend(tok, Words(a), Words(b));
  }

  lemma CountOfSection(tok: Tokenizer, labels: Labels, t: string)
    ensures tok.Count(HeaderText(labels, "", [t])) == tok.Count(labels.section) + tok.Count(t)
  {
    assert HeaderText(labels, "", [t]) == labels.section + t;
    CountAfterBreak(tok, labels.section, t);
  }

  lemma CountOfTitle(tok: Tokenizer, labels: Labels, t: string)
    ensures tok.Count(HeaderText(labels, t, [])) <= tok.Count(labels.document) + tok.Count(t)
  {
    if t == [] {
      assert HeaderText(labels, t, []) == [];
    } else {
      assert HeaderText(labels, t, []) == labels.document + t;
      CountAfterBreak(tok, labels.document, t);
    }
  }

  lemma TruncatedFits(tok: Tokenizer, text: string, budget: int)
    requires budget > 0 && NoOversizedToken(tok, text, budget)
    ensures tok.Count(TruncateToTokens(tok, text, budget)) <= budget
  {
    PiecesFit(tok, text, budget);
  }

  /** Titles and segments have no token that alone exceeds what truncation leaves for them. */
  ghost predicate Truncatable(tok: Tokenizer, labels: Labels, title: string, path: seq<string>, budget: int)
  {
    && NoOversizedToken(tok, title, Max(budget - tok.Count(labels.document), 1))
    && (path != [] ==> NoOversizedToken(tok, path[|path| - 1], Max(budget - tok.Count(labels.section), 1)))
  }

  lemma DeepestFits(tok: Tokenizer, labels: Labels, deepest: string, room: int, budget: int)
    requires room > 0
    requires NoOversizedToken(tok, deepest, room) && room == budget - tok.Count(labels.section)
    ensures tok.Count(HeaderText(labels, "", [TruncateToTokens(tok, deepest, room)])) <= budget
  {
    TruncatedFits(tok, deepest, room);
    CountOfSection(tok, labels, TruncateToTokens(tok, deepest, room));
  }

  lemma TitleFits(tok: Tokenizer, labels: Labels, title: string, room: int, budget: int)
    requires room > 0
    requires NoOversizedToken(tok, title, room) && room == budget - tok.Count(labels.document)
    ensures tok.Count(HeaderText(labels, TruncateToTokens(tok, title, room), [])) <= budget
  {
    TruncatedFits(tok, title, room);
    CountOfTitle(tok, labels, TruncateToTokens(tok, title, room));
  }

  /** Once cut to what the labels leave, the deepest segment and the title fit. */
  ghost predicate CutFits(m: HeaderMaker, title: string, path: seq<string>, budget: int)
  {
    && m.sectionTokens < budget && m.documentTokens < budget
    && (path != [] ==> m.count(m.text("", [m.cut(path[|path| - 1], budget - m.sectionTokens)])) <= budget)
    && m.count(m.text(m.cut(title, budget - m.documentTokens), [])) <= budget
  }

  lemma FittedFits(m: HeaderMaker, title: string, path: seq<string>, budget: int)
    requires CutFits(m, title, path, budget) && m.count([]) <= budget
    ensures m.count(m.Fit(title, path, budget).0) <= budget
  {
    if |path| > 1 {
      assert path[|path| - 1..] == [path[|path| - 1]];
    }
  }

  /** The fitted header is within its budget, as long as the budget has room
      for a label and one token. */
  lemma FittedHeaderFits(tok: Tokenizer, labels: Labels, title: string, path: seq<string>, budget: int)
    requires Truncatable(tok, labels, title, path, budget)
    requires tok.Count(labels.section) < budget && tok.Count(labels.document) < budget
    ensures tok.Count(MakerOf(tok, labels).Fit(title, path, budget).0) <= budget
  {
    if path != [] {
      DeepestFits(tok, labels, path[|path| - 1], budget - tok.Count(labels.section), budget);
    }
    TitleFits(tok, labels, title, budget - tok.Count(labels.document), budget);
    FittedFits(MakerOf(tok, labels), title, path, budget);
  }

  // ---- payloads ---------------------------------------------------------------------------

  /** What the model sees of a chunk, special tokens included. */
  function Payload(tok: Tokenizer, header: string, body: string): nat
  {
    tok.specialTokens + tok.Count(ContextualText(header, body))
  }

  /** `text` is the body under the header, after an empty line if there are both. */
  ghost predicate IsUnder(header: string, body: string, text: string)
  {
    && (header == [] || body == [] ==> text == header + body)
    && (header != [] && body != [] ==> text == header + "\n\n" + body)
  }

  lemma ContextualIff(header: string, body: string, text: string)
    ensures text == ContextualText(header, body) <==> IsUnder(header, body, text)
  {
  }

  /** The embedding input holds the words of the header, then those of the body. */
  lemma WordsOfContextual(header: string, body: string)
    ensures Words(ContextualText(header, body)) == Words(header) + Words(body)
  {
    if header != [] && body != [] {
      WordsAcrossSeparator(header, "\n\n", body);
    }
  }

  lemma CountOfContextual(tok: Tokenizer, header: string, body: string)
    ensures tok.Count(ContextualText(header, body)) == tok.Count(header) + tok.Count(body)
  {
    if header != [] && body != [] {
      CountAcross(tok, header, "\n\n", body);
    }
  }

  /** A body within its budget makes a payload within the payload budget,
      exactly when the header leaves a token for it or the body is empty enough. */
  lemma PayloadFits(b: Budgeter, header: string, body: string)
    requires b.tok.Count(header) < b.Available()
    ensures Payload(b.tok, header, body) <= b.PayloadBudget() <==> b.tok.Count(body) <= b.BodyBudget(header).bodyMax
  {
    CountOfContextual(b.tok, header, body);
  }

  // ---- one run ---------------------------------------------------------------------------------

  datatype Unit = Unit(text: string, pageStart: Option<int>, pageEnd: Option<int>)

  /** A paragraph chunk: its text, its embedding input and its pages. */
  datatype Body = Body(text: string, contextual: string, tokens: nat, pageStart: Option<int>, pageEnd: Option<int>)

  function TextsOf(pieces: seq<Piece>): (r: seq<string>)
    ensures |r| == |pieces| && forall k :: 0 <= k < |r| ==> r[k] == pieces[k].text
  {
    if pieces == [] then [] else TextsOf(pieces[..|pieces| - 1]) + [pieces[|pieces| - 1].text]
  }

  lemma {:induction false} TextsAppend(a: seq<Piece>, b: seq<Piece>)
    ensures TextsOf(a + b) == TextsOf(a) + TextsOf(b)
    decreases |b|
  {
    if b == [] {
      assert a + b == a;
    } else {
      assert (a + b)[..|a + b| - 1] == a + b[..|b| - 1];
      TextsAppend(a, b[..|b| - 1]);
    }
  }

  function UnitTexts(units: seq<Unit>): (r: seq<string>)
    ensures |r| == |units| && forall k :: 0 <= k < |r| ==> r[k] == units[k].text
  {
    if units == [] then [] else UnitTexts(units[..|units| - 1]) + [units[|units| - 1].text]
  }

  /** Every piece carries its own token count. */
  ghost predicate Counted(tok: Tokenizer, pieces: seq<Piece>)
  {
    forall p :: p in pieces ==> p.tokens == tok.Count(p.text)
  }

  /** The parts of one paragraph as pieces. */
  method PiecesOfUnit(tok: Tokenizer, unit: Unit, parts: seq<string>) returns (pieces: seq<Piece>)
    ensures TextsOf(pieces) == parts && Counted(tok, pieces)
    ensures forall p :: p in pieces ==> p.pageStart == unit.pageStart && p.pageEnd == unit.pageEnd && p.text in parts
  {
    pieces := [];
    for i := 0 to |parts|
      invariant TextsOf(pieces) == parts[..i] && Counted(tok, pieces)
      invariant forall p :: p in pieces ==>
        p.pageStart == unit.pageStart && p.pageEnd == unit.pageEnd && p.text in parts
    {
      var p := Piece(parts[i], unit.pageStart, unit.pageEnd, tok.Count(parts[i]));
      assert (pieces + [p])[..|pieces|] == pieces;
      assert parts[..i + 1] == parts[..i] + [parts[i]];
      pieces := pieces + [p];
    }
    assert parts[..|parts|] == parts;
  }

  /** No single token of the run is over the budget. */
  ghost predicate RunSplittable(tok: Tokenizer, units: seq<Unit>, budget: nat)
  {
    forall u :: u in units ==> Splittable(tok, Words(u.text), budget)
  }

  lemma OneMoreUnit(tok: Tokenizer, units: seq<Unit>, i: nat, budget: nat)
    requires i < |units| && budget > 0
    ensures Expand(tok, WordsOfAll(UnitTexts(units[..i + 1])), budget)
      == Expand(tok, WordsOfAll(UnitTexts(units[..i])), budget) + Expand(tok, Words(units[i].text), budget)
  {
    assert units[..i + 1][..i] == units[..i];
    OneMorePart(UnitTexts(units[..i]), units[i].text);
    FlatMapAppend(Expander(tok, budget), WordsOfAll(UnitTexts(units[..i])), Words(units[i].text));
  }

  /** The pieces of one paragraph: its words, in order, on its pages. */
  ghost predicate AreOfUnit(tok: Tokenizer, unit: Unit, budget: nat, pieces: seq<Piece>)
    requires budget > 0
  {
    && WordsOfAll(TextsOf(pieces)) == Expand(tok, Words(unit.text), budget)
    && (forall p :: p in pieces ==> p.pageStart == unit.pageStart && p.pageEnd == unit.pageEnd)
    && (unit.text != [] && tok.Count(unit.text) <= budget ==> TextsOf(pieces) == [unit.text])
    && NoneJoinable(tok, TextsOf(pieces), budget)
  }

  /** Splits one paragraph. */
  method SplitUnit(tok: Tokenizer, unit: Unit, budget: nat) returns (pieces: seq<Piece>)
    requires tok.Valid() && budget > 0
    ensures Counted(tok, pieces) && AreOfUnit(tok, unit, budget, pieces)
    ensures Splittable(tok, Words(unit.text), budget) ==> forall p :: p in pieces ==> p.tokens <= budget
  {
    var texts := SplitByTokenBudget(tok, unit.text, budget);
    pieces := PiecesOfUnit(tok, unit, texts);
  }

  /** The pieces of each of the first paragraphs, one paragraph after the other. */
  ghost predicate AreOfUnits(
    tok: Tokenizer, units: seq<Unit>, budget: nat, parts: seq<seq<Piece>>, pieces: seq<Piece>)
    requires budget > 0
  {
    && |parts| <= |units| && Flatten(parts) == pieces
    && forall i :: 0 <= i < |parts| ==> AreOfUnit(tok, units[i], budget, parts[i])
  }

  /** The pieces of the first paragraphs. */
  ghost predicate PiecesUpTo(
    tok: Tokenizer, units: seq<Unit>, budget: nat, parts: seq<seq<Piece>>, pieces: seq<Piece>)
    requires |parts| <= |units| && budget > 0
  {
    && Counted(tok, pieces) && AreOfUnits(tok, units, budget, parts, pieces)
    && WordsOfAll(TextsOf(pieces)) == Expand(tok, WordsOfAll(UnitTexts(units[..|parts|])), budget)
    && (RunSplittable(tok, units, budget) ==> forall p :: p in pieces ==> p.tokens <= budget)
  }

  lemma OfUnitsGrow(
    tok: Tokenizer, units: seq<Unit>, budget: nat, parts: seq<seq<Piece>>, pieces: seq<Piece>, more: seq<Piece>)
    requires |parts| < |units| && budget > 0 && AreOfUnits(tok, units, budget, parts, pieces)
    requires AreOfUnit(tok, units[|parts|], budget, more)
    ensures AreOfUnits(tok, units, budget, parts + [more], pieces + more)
  {
    FlattenSnoc(parts, more);
  }

  lemma PiecesGrow(
    tok: Tokenizer, units: seq<Unit>, budget: nat, parts: seq<seq<Piece>>, pieces: seq<Piece>, more: seq<Piece>)
    requires |parts| < |units| && budget > 0 && PiecesUpTo(tok, units, budget, parts, pieces)
    requires Counted(tok, more) && AreOfUnit(tok, units[|parts|], budget, more)
    requires RunSplittable(tok, units, budget) ==> forall p :: p in more ==> p.tokens <= budget
    ensures PiecesUpTo(tok, units, budget, parts + [more], pieces + more)
  {
    OneMoreUnit(tok, units, |parts|, budget);
    TextsAppend(pieces, more);
    WordsOfAllAppend(TextsOf(pieces), TextsOf(more));
    OfUnitsGrow(tok, units, budget, parts, pieces, more);
    CountedAppend(tok, pieces, more);
  }

  /** All pieces of a run, paragraph by paragraph, each piece within the budget. */
  method PiecesOfRun(tok: Tokenizer, units: seq<Unit>, budget: nat)
    returns (pieces: seq<Piece>, ghost parts: seq<seq<Piece>>)
    requires tok.Valid() && budget > 0
    ensures Counted(tok, pieces) && |parts| == |units| && AreOfUnits(tok, units, budget, parts, pieces)
    ensures WordsOfAll(TextsOf(pieces)) == Expand(tok, WordsOfAll(UnitTexts(units)), budget)
    ensures RunSplittable(tok, units, budget) ==> forall p :: p in pieces ==> p.tokens <= budget
  {
    pieces, parts := [], [];
    for i := 0 to |units|
      invariant |parts| == i && PiecesUpTo(tok, units, budget, parts, pieces)
    {
      var more := SplitUnit(tok, units[i], budget);
      PiecesGrow(tok, units, budget, parts, pieces, more);
      pieces, parts := pieces + more, parts + [more];
    }
    assert units[..|units|] == units;
  }

  function PagesOf(group: seq<Piece>): seq<int>
  {
    if group == [] then []
    else
      var p := group[|group| - 1];
      PagesOf(group[..|group| - 1]) +
      (if p.pageStart.Some? then [p.pageStart.value] else []) +
      (if p.pageEnd.Some? then [p.pageEnd.value] else [])
  }

  function Least(pages: seq<int>): (r: Option<int>)
    ensures r.None? <==> pages == []
    ensures r.Some? ==> r.value in pages && forall p :: p in pages ==> r.value <= p
  {
    if pages == [] then None
    else
      assert pages == [pages[0]] + pages[1..];
      var rest := Least(pages[1..]);
      if rest.Some? && rest.value < pages[0] then rest else Some(pages[0])
  }

  function Greatest(pages: seq<int>): (r: Option<int>)
    ensures r.None? <==> pages == []
    ensures r.Some? ==> r.value in pages && forall p :: p in pages ==> p <= r.value
  {
    if pages == [] then None
    else
      assert pages == [pages[0]] + pages[1..];
      var rest := Greatest(pages[1..]);
      if rest.Some? && rest.value > pages[0] then rest else Some(pages[0])
  }

  /** One of the pages of the piece. */
  ghost predicate IsOnPage(p: Piece, n: int)
  {
    p.pageStart == Some(n) || p.pageEnd == Some(n)
  }

  lemma {:induction false} PagesHave(group: seq<Piece>, n: int)
    ensures n in PagesOf(group) <==> exists p :: p in group && IsOnPage(p, n)
    decreases |group|
  {
    if group != [] {
      var front, last := group[..|group| - 1], group[|group| - 1];
      PagesHave(front, n);
      assert n in PagesOf(group) <==> n in PagesOf(front) || IsOnPage(last, n);
      assert group == front + [last];
    }
  }

  /** The first page of the group; none if no piece has one. */
  ghost predicate IsFirstPage(group: seq<Piece>, page: Option<int>)
  {
    match page
    case None => forall p, n :: p in group ==> !IsOnPage(p, n)
    case Some(first) =>
      && (exists p :: p in group && IsOnPage(p, first))
      && forall p, n :: p in group && IsOnPage(p, n) ==> first <= n
  }

  /** The last page of the group; none if no piece has one. */
  ghost predicate IsLastPage(group: seq<Piece>, page: Option<int>)
  {
    match page
    case None => forall p, n :: p in group ==> !IsOnPage(p, n)
    case Some(last) =>
      && (exists p :: p in group && IsOnPage(p, last))
      && forall p, n :: p in group && IsOnPage(p, n) ==> n <= last
  }

  lemma PagesMean(group: seq<Piece>)
    ensures IsFirstPage(group, Least(PagesOf(group))) && IsLastPage(group, Greatest(PagesOf(group)))
  {
    forall n {
      PagesHave(group, n);
    }
    assert PagesOf(group) != [] ==> PagesOf(group)[0] in PagesOf(group);
    forall p, n | p in group && IsOnPage(p, n)
      ensures n in PagesOf(group)
    {
      PagesHave(group, n);
    }
  }

  /** What a group becomes: its texts joined, under the header, on its pages. */
  function BodyOf(tok: Tokenizer, header: string, group: seq<Piece>): Body
  {
    var text := Join(TextsOf(group), "\n\n");
    Body(text, ContextualText(header, text), tok.Count(text), Least(PagesOf(group)), Greatest(PagesOf(group)))
  }

  /** `c` is the chunk of the group: it holds the words of every piece, in
      order, follows the header in its embedding input, and is on their pages. */
  ghost predicate IsBody(tok: Tokenizer, header: string, group: seq<Piece>, c: Body)
  {
    && c.text == Join(TextsOf(group), "\n\n") && Words(c.text) == WordsOfAll(TextsOf(group))
    && IsUnder(header, c.text, c.contextual) && Words(c.contextual) == Words(header) + Words(c.text)
    && c.tokens == tok.Count(c.text)
    && IsFirstPage(group, c.pageStart) && IsLastPage(group, c.pageEnd)
  }

  /** Every group has become one chunk. */
  ghost predicate AreBodies(tok: Tokenizer, header: string, groups: seq<seq<Piece>>, bodies: seq<Body>)
  {
    |bodies| == |groups| && forall k :: 0 <= k < |groups| ==> IsBody(tok, header, groups[k], bodies[k])
  }

  lemma BodyMeans(tok: Tokenizer, header: string, group: seq<Piece>)
    ensures IsBody(tok, header, group, BodyOf(tok, header, group))
  {
    WordsOfJoin(TextsOf(group), "\n\n");
    var text := Join(TextsOf(group), "\n\n");
    WordsOfContextual(header, text);
    ContextualIff(header, text, ContextualText(header, text));
    PagesMean(group);
  }

  lemma BodiesAreUnderHeader(tok: Tokenizer, header: string, groups: seq<seq<Piece>>, bodies: seq<Body>)
    requires AreBodies(tok, header, groups, bodies)
    ensures forall c :: c in bodies ==> IsUnder(header, c.text, c.contextual)
  {
    forall k | 0 <= k < |bodies|
      ensures IsUnder(header, bodies[k].text, bodies[k].contextual)
    {
      assert IsBody(tok, header, groups[k], bodies[k]);
    }
  }

  function BodyTexts(bodies: seq<Body>): (r: seq<string>)
    ensures |r| == |bodies| && forall k :: 0 <= k < |r| ==> r[k] == bodies[k].text
  {
    if bodies == [] then [] else BodyTexts(bodies[..|bodies| - 1]) + [bodies[|bodies| - 1].text]
  }

  /** The words of the chunks are those of the groups. */
  lemma {:induction false} WordsOfBodies(tok: Tokenizer, header: string, groups: seq<seq<Piece>>, bodies: seq<Body>)
    requires AreBodies(tok, header, groups, bodies)
    ensures WordsOfAll(BodyTexts(bodies)) == WordsOfAll(TextsOf(Flatten(groups)))
    decreases |groups|
  {
    if groups != [] {
      var last := |groups| - 1;
      WordsOfBodies(tok, header, groups[..last], bodies[..last]);
      assert IsBody(tok, header, groups[last], bodies[last]);
      TextsAppend(Flatten(groups[..last]), groups[last]);
      WordsOfAllAppend(TextsOf(Flatten(groups[..last])), TextsOf(groups[last]));
    }
  }

  lemma {:induction false} CountOfGroup(tok: Tokenizer, group: seq<Piece>)
    requires Counted(tok, group)
    ensures Sum(Weight(tok), TextsOf(group)) == Sum(Packing.Tokens(), group)
    decreases |group|
  {
    if group != [] {
      CountOfGroup(tok, group[..|group| - 1]);
      SumSnoc(Weight(tok), TextsOf(group[..|group| - 1]), group[|group| - 1].text);
    }
  }

  /** A group within the body budget becomes a chunk within the payload budget. */
  lemma BodyFits(b: Budgeter, header: string, group: seq<Piece>)
    requires Counted(b.tok, group) && b.tok.Count(header) < b.Available()
    requires Sum(Packing.Tokens(), group) <= b.BodyBudget(header).bodyMax
    ensures Payload(b.tok, header, Join(TextsOf(group), "\n\n")) <= b.PayloadBudget()
  {
    CountOfGroup(b.tok, group);
    CountOfJoin(b.tok, TextsOf(group), "\n\n");
    PayloadFits(b, header, Join(TextsOf(group), "\n\n"));
  }

  lemma {:induction false} CountedGroups(tok: Tokenizer, groups: seq<seq<Piece>>)
    ensures Counted(tok, Flatten(groups)) <==> forall k :: 0 <= k < |groups| ==> Counted(tok, groups[k])
    decreases |groups|
  {
    if groups != [] {
      var front, last := groups[..|groups| - 1], groups[|groups| - 1];
      CountedGroups(tok, front);
      CountedAppend(tok, Flatten(front), last);
      assert forall k :: 0 <= k < |front| ==> front[k] == groups[k];
    }
  }

  lemma CountedAppend(tok: Tokenizer, a: seq<Piece>, b: seq<Piece>)
    ensures Counted(tok, a + b) <==> Counted(tok, a) && Counted(tok, b)
  {
    assert forall p :: p in a + b <==> p in a || p in b;
  }

  lemma BodiesFit(b: Budgeter, header: string, groups: seq<seq<Piece>>, bodies: seq<Body>)
    requires b.tok.Count(header) < b.Available() && GroupsFit(groups, b.BodyBudget(header))
    requires forall k :: 0 <= k < |groups| ==> Counted(b.tok, groups[k])
    requires AreBodies(b.tok, header, groups, bodies)
    ensures forall c :: c in bodies ==> Payload(b.tok, header, c.text) <= b.PayloadBudget()
  {
    forall k | 0 <= k < |groups|
      ensures Payload(b.tok, header, bodies[k].text) <= b.PayloadBudget()
    {
      BodyFits(b, header, groups[k]);
      assert IsBody(b.tok, header, groups[k], bodies[k]);
    }
  }

  /** Rebalanced windows of counted pieces are groups of counted pieces. */
  lemma MergedAreCounted(
    tok: Tokenizer, pieces: seq<Piece>, groups: seq<seq<Piece>>, windows: seq<Window>, budget: Budget,
    merged: seq<seq<Piece>>)
    requires Counted(tok, pieces) && AreWindows(pieces, groups, windows, budget, |pieces|)
    requires Flatten(merged) == Flatten(groups)
    ensures forall k :: 0 <= k < |merged| ==> Counted(tok, merged[k])
  {
    forall k | 0 <= k < |groups|
      ensures Counted(tok, groups[k])
    {
      assert IsWindow(pieces, groups[k], windows[k], budget);
    }
    CountedGroups(tok, groups);
    CountedGroups(tok, merged);
  }

  /** What a run of paragraphs becomes: `parts` are the pieces of each
      paragraph, `pieces` all of them, `groups` windows of these, and `merged`
      the groups after rebalancing, none of which is empty. */
  ghost predicate IsChunking(
    b: Budgeter, header: string, units: seq<Unit>, parts: seq<seq<Piece>>, pieces: seq<Piece>,
    groups: seq<seq<Piece>>, windows: seq<Window>, merged: seq<seq<Piece>>)
  {
    var budget := b.BodyBudget(header);
    && |parts| == |units| && AreOfUnits(b.tok, units, budget.bodyMax, parts, pieces)
    && WordsOfAll(TextsOf(pieces)) == Expand(b.tok, WordsOfAll(UnitTexts(units)), budget.bodyMax)
    && AreWindows(pieces, groups, windows, budget, |pieces|)
    && IsMerged(groups, budget, merged) && NoneEmpty(merged)
  }

  /** Splits, packs and rebalances a run. */
  method PackRun(b: Budgeter, header: string, units: seq<Unit>)
    returns (merged: seq<seq<Piece>>, ghost parts: seq<seq<Piece>>, ghost pieces: seq<Piece>,
             ghost groups: seq<seq<Piece>>, ghost windows: seq<Window>)
    requires b.tok.Valid()
    ensures IsChunking(b, header, units, parts, pieces, groups, windows, merged)
    ensures forall k :: 0 <= k < |merged| ==> Counted(b.tok, merged[k])
    ensures RunSplittable(b.tok, units, b.BodyBudget(header).bodyMax) ==> GroupsFit(merged, b.BodyBudget(header))
  {
    var budget := b.BodyBudget(header);
    var found;
    found, parts := PiecesOfRun(b.tok, units, budget.bodyMax);
    var packed;
    packed, windows := PackPieces(found, budget);
    merged := MergePeers(packed, budget);
    pieces, groups := found, packed;
    MergedKeeps(packed, budget, merged);
    WindowsHoldPieces(found, packed, windows, budget);
    MergedNoneEmpty(packed, budget, merged);
    MergedAreCounted(b.tok, found, packed, windows, budget, merged);
    if RunSplittable(b.tok, units, budget.bodyMax) {
      WindowsFit(found, packed, windows, budget);
    }
  }

  lemma OneMoreBody(tok: Tokenizer, header: string, groups: seq<seq<Piece>>, i: nat, bodies: seq<Body>)
    requires i < |groups| && AreBodies(tok, header, groups[..i], bodies)
    ensures AreBodies(tok, header, groups[..i + 1], bodies + [BodyOf(tok, header, groups[i])])
  {
    var more := bodies + [BodyOf(tok, header, groups[i])];
    forall k | 0 <= k < i + 1
      ensures IsBody(tok, header, groups[..i + 1][k], more[k])
    {
      if k < i {
        assert IsBody(tok, header, groups[..i][k], bodies[k]);
      } else {
        BodyMeans(tok, header, groups[i]);
      }
    }
  }

  method MakeBodies(tok: Tokenizer, header: string, groups: seq<seq<Piece>>) returns (bodies: seq<Body>)
    ensures AreBodies(tok, header, groups, bodies)
  {
    bodies := [];
    for i := 0 to |groups|
      invariant AreBodies(tok, header, groups[..i], bodies)
    {
      OneMoreBody(tok, header, groups, i, bodies);
      bodies := bodies + [BodyOf(tok, header, groups[i])];
    }
    assert groups[..|groups|] == groups;
  }

  /** The chunks of one run of paragraphs under a header: no word is lost or
      reordered, each chunk holds the words of its pieces and is on their
      pages, and every payload is within the budget whenever the header leaves
      at least one token and no single token exceeds what it leaves. */
  method FlushRun(b: Budgeter, header: string, units: seq<Unit>)
    returns (bodies: seq<Body>, ghost parts: seq<seq<Piece>>, ghost pieces: seq<Piece>, ghost groups: seq<seq<Piece>>,
             ghost windows: seq<Window>, ghost merged: seq<seq<Piece>>)
    requires b.tok.Valid()
    ensures IsChunking(b, header, units, parts, pieces, groups, windows, merged)
    ensures AreBodies(b.tok, header, merged, bodies)
    ensures b.tok.Count(header) < b.Available() && RunSplittable(b.tok, units, b.BodyBudget(header).bodyMax)
      ==> forall c :: c in bodies ==> Payload(b.tok, header, c.text) <= b.PayloadBudget()
  {
    var balanced;
    balanced, parts, pieces, groups, windows := PackRun(b, header, units);
    merged := balanced;
    bodies := MakeBodies(b.tok, header, balanced);
    if b.tok.Count(header) < b.Available() && RunSplittable(b.tok, units, b.BodyBudget(header).bodyMax) {
      BodiesFit(b, header, balanced, bodies);
    }
  }

  /** The words of a run, those cut that are over the budget alone. */
  function RunWords(b: Budgeter, header: string, units: seq<Unit>): seq<string>
  {
    Expand(b.tok, WordsOfAll(UnitTexts(units)), b.BodyBudget(header).bodyMax)
  }

  /** The words of a run are those of its chunks, without what windows repeat:
      each group is a repeat, of at most the overlap, followed by new pieces;
      the new pieces hold the words of the paragraphs, and the chunks hold
      those of the groups. Without overlap the chunks hold just the words of
      the paragraphs. */
  lemma ChunksHoldTheRun(
    b: Budgeter, header: string, units: seq<Unit>, parts: seq<seq<Piece>>, pieces: seq<Piece>,
    groups: seq<seq<Piece>>, windows: seq<Window>, merged: seq<seq<Piece>>, bodies: seq<Body>)
    requires IsChunking(b, header, units, parts, pieces, groups, windows, merged)
    requires AreBodies(b.tok, header, merged, bodies)
    ensures
      var added, budget := NewParts(pieces, windows, |windows|), b.BodyBudget(header);
      && |added| == |groups| == |windows|
      && (forall k :: 0 <= k < |groups| ==>
            RepeatsAndAdds(groups[k], Repeated(pieces, windows, k), added[k], budget.overlap))
      && WordsOfAll(TextsOf(Flatten(added))) == RunWords(b, header, units)
      && WordsOfAll(BodyTexts(bodies)) == WordsOfAll(TextsOf(Flatten(groups)))
    ensures b.BodyBudget(header).overlap <= 0 ==> WordsOfAll(BodyTexts(bodies)) == RunWords(b, header, units)
  {
    var budget, added := b.BodyBudget(header), NewParts(pieces, windows, |windows|);
    NewPartsAreThePieces(pieces, groups, windows, budget);
    MergedKeeps(groups, budget, merged);
    WordsOfBodies(b.tok, header, merged, bodies);
    WindowsRepeatAndAdd(pieces, groups, windows, budget);
    if budget.overlap <= 0 {
      NothingRepeated(groups, pieces, windows, added, budget.overlap);
    }
  }

  lemma NothingRepeated(
    groups: seq<seq<Piece>>, pieces: seq<Piece>, windows: seq<Window>, added: seq<seq<Piece>>, overlap: int)
    requires |added| == |groups| == |windows| && overlap <= 0
    requires forall k :: 0 <= k < |groups| ==>
      RepeatsAndAdds(groups[k], Repeated(pieces, windows, k), added[k], overlap)
    ensures added == groups
  {
    forall k | 0 <= k < |groups|
      ensures added[k] == groups[k]
    {
      assert RepeatsAndAdds(groups[k], Repeated(pieces, windows, k), added[k], overlap);
    }
  }

  /** The header of a run's chunks. */
  function HeaderOf(b: Budgeter, title: string, path: seq<string>): string
  {
    MakerOf(b.tok, b.labels).Fit(title, path, b.HeaderBudget()).0
  }

  /** A fitted header always leaves the minimum body when its budget has room
      for a label and one more token, and nothing in the title or the deepest
      heading is oversized. */
  lemma HeaderLeavesBody(b: Budgeter, title: string, path: seq<string>)
    requires Truncatable(b.tok, b.labels, title, path, b.HeaderBudget())
    requires b.tok.Count(b.labels.section) < b.HeaderBudget() && b.tok.Count(b.labels.document) < b.HeaderBudget()
    requires b.Available() > 1
    ensures b.tok.Count(HeaderOf(b, title, path)) <= b.Available() - b.MinBody() < b.Available()
  {
    FittedHeaderFits(b.tok, b.labels, title, path, b.HeaderBudget());
  }
}
