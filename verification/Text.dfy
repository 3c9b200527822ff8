/** Whitespace, words and joins, and how tokens are counted over them. */
module Text {

  /** Unicode White_Space plus the separators U+001C to U+001F. */
  predicate IsSpace(c: char)
  {
    var n := c as int;
    || 9 <= n <= 13 || 28 <= n <= 32 || n == 0x85 || n == 0xA0 || n == 0x1680 || 0x2000 <= n <= 0x200A
    || n == 0x2028 || n == 0x2029 || n == 0x202F || n == 0x205F || n == 0x3000
  }

  /** The length of the word at the start of `s`. */
  function WordLen(s: string): (n: nat)
    ensures n <= |s|
    ensures s != [] && !IsSpace(s[0]) ==> n > 0
    ensures forall i :: 0 <= i < n ==> !IsSpace(s[i])
    ensures n < |s| ==> IsSpace(s[n])
  {
    if s == [] || IsSpace(s[0]) then 0 else 1 + WordLen(s[1..])
  }

  /** The words of `s`: its maximal runs without whitespace. */
  function Words(s: string): seq<string>
    decreases |s|
  {
    if s == [] then []
    else if IsSpace(s[0]) then Words(s[1..])
    else [s[..WordLen(s)]] + Words(s[WordLen(s)..])
  }

  predicate IsWord(w: string)
  {
    w != [] && forall i :: 0 <= i < |w| ==> !IsSpace(w[i])
  }

  predicate IsBlank(s: string)
  {
    forall i :: 0 <= i < |s| ==> IsSpace(s[i])
  }

  /** A break between `a` and `b`: one of them is empty or whitespace stands at their border. */
  predicate BreaksBefore(b: string)
  {
    b == [] || IsSpace(b[0])
  }

  predicate BreaksAfter(a: string)
  {
    a == [] || IsSpace(a[|a| - 1])
  }

  lemma {:induction false} WordLenOfConcat(a: string, b: string)
    requires BreaksBefore(b) || WordLen(a) < |a|
    ensures WordLen(a + b) == WordLen(a)
    decreases |a|
  {
    if a == [] {
      assert a + b == b;
    } else if !IsSpace(a[0]) {
      assert (a + b)[1..] == a[1..] + b;
      WordLenOfConcat(a[1..], b);
    }
  }

  lemma {:induction false} WordsOfConcat(a: string, b: string)
    requires BreaksBefore(b) || BreaksAfter(a)
    ensures Words(a + b) == Words(a) + Words(b)
    decreases |a|
  {
    if a == [] {
      assert a + b == b;
    } else if IsSpace(a[0]) {
      assert (a + b)[1..] == a[1..] + b;
      WordsOfConcat(a[1..], b);
    } else {
      var n := WordLen(a);
      WordLenOfConcat(a, b);
      assert (a + b)[..n] == a[..n] && (a + b)[n..] == a[n..] + b;
      WordsOfConcat(a[n..], b);
    }
  }

  lemma {:induction false} WordsOfBlank(s: string)
    requires IsBlank(s)
    ensures Words(s) == []
    decreases |s|
  {
    if s != [] {
      WordsOfBlank(s[1..]);
    }
  }

  lemma {:induction false} WordsAreWords(s: string)
    ensures forall w :: w in Words(s) ==> IsWord(w)
    decreases |s|
  {
    if s != [] {
      if IsSpace(s[0]) { WordsAreWords(s[1..]); } else { WordsAreWords(s[WordLen(s)..]); }
    }
  }

  lemma {:induction false} WordLenOfWord(w: string)
    requires IsWord(w)
    ensures WordLen(w) == |w|
    decreases |w|
  {
    if |w| > 1 { WordLenOfWord(w[1..]); }
  }

  lemma WordsOfWord(w: string)
    requires IsWord(w)
    ensures Words(w) == [w]
  {
    WordLenOfWord(w);
    assert w[..|w|] == w && w[|w|..] == [];
  }

  // ---- joins ---------------------------------------------------------------------------

  function Join(parts: seq<string>, sep: string): string
  {
    if parts == [] then []
    else if |parts| == 1 then parts[0]
    else Join(parts[..|parts| - 1], sep) + sep + parts[|parts| - 1]
  }

  /** Nothing for no parts; otherwise the parts with the separator between any two neighbours. */
  lemma JoinMeans(parts: seq<string>, last: string, sep: string)
    ensures Join([], sep) == [] && Join([last], sep) == last
    ensures parts != [] ==> Join(parts + [last], sep) == Join(parts, sep) + sep + last
  {
    assert (parts + [last])[..|parts|] == parts;
  }

  function WordsOfAll(parts: seq<string>): seq<string>
  {
    if parts == [] then [] else WordsOfAll(parts[..|parts| - 1]) + Words(parts[|parts| - 1])
  }

  lemma {:induction false} WordsOfAllAppend(a: seq<string>, b: seq<string>)
    ensures WordsOfAll(a + b) == WordsOfAll(a) + WordsOfAll(b)
    decreases |b|
  {
    if b == [] {
      assert a + b == a;
    } else {
      var front, last := b[..|b| - 1], b[|b| - 1];
      WordsOfAllAppend(a, front);
      assert (a + b)[..|a + b| - 1] == a + front && (a + b)[|a + b| - 1] == last;
      AppendIsAssociative(WordsOfAll(a), WordsOfAll(front), Words(last));
    }
  }

  lemma AppendIsAssociative<T>(a: seq<T>, b: seq<T>, c: seq<T>)
    ensures a + b + c == a + (b + c)
  {
  }

  lemma WordsOfOne(part: string)
    ensures WordsOfAll([part]) == Words(part)
  {
    assert [part][..0] == [];
  }

  predicate IsSeparator(sep: string)
  {
    sep != [] && IsBlank(sep)
  }

  lemma WordsAcrossSeparator(a: string, sep: string, b: string)
    requires IsSeparator(sep)
    ensures Words(a + sep + b) == Words(a) + Words(b)
  {
    WordsOfConcat(a + sep, b);
    WordsOfConcat(a, sep);
    WordsOfBlank(sep);
  }

  /** Joining with whitespace keeps the words of the parts, in order. */
  lemma {:induction false} WordsOfJoin(parts: seq<string>, sep: string)
    requires IsSeparator(sep)
    ensures Words(Join(parts, sep)) == WordsOfAll(parts)
    decreases |parts|
  {
    if |parts| == 1 {
      assert parts == [parts[0]];
      WordsOfOne(parts[0]);
    } else if parts != [] {
      WordsOfJoin(parts[..|parts| - 1], sep);
      WordsAcrossSeparator(Join(parts[..|parts| - 1], sep), sep, parts[|parts| - 1]);
    }
  }

  // ---- trimming --------------------------------------------------------------------------

  function TrimStart(s: string): (r: string)
    ensures r == [] || !IsSpace(r[0])
  {
    if s != [] && IsSpace(s[0]) then TrimStart(s[1..]) else s
  }

  function TrimEnd(s: string): (r: string)
    ensures r == [] || !IsSpace(r[|r| - 1])
  {
    if s != [] && IsSpace(s[|s| - 1]) then TrimEnd(s[..|s| - 1]) else s
  }

  /** The text without leading and trailing whitespace. */
  function Strip(s: string): string
  {
    TrimEnd(TrimStart(s))
  }

  lemma {:induction false} WordsOfTrimStart(s: string)
    ensures Words(TrimStart(s)) == Words(s)
    decreases |s|
  {
    if s != [] && IsSpace(s[0]) {
      WordsOfTrimStart(s[1..]);
    }
  }

  lemma WordsOfTrailingSpace(s: string, c: char)
    requires IsSpace(c)
    ensures Words(s + [c]) == Words(s)
  {
    WordsOfConcat(s, [c]);
    WordsOfBlank([c]);
  }

  lemma {:induction false} WordsOfTrimEnd(s: string)
    ensures Words(TrimEnd(s)) == Words(s)
    decreases |s|
  {
    if s != [] && IsSpace(s[|s| - 1]) {
      WordsOfTrimEnd(s[..|s| - 1]);
      assert s == s[..|s| - 1] + [s[|s| - 1]];
      WordsOfTrailingSpace(s[..|s| - 1], s[|s| - 1]);
    }
  }

  lemma WordsOfStrip(s: string)
    ensures Words(Strip(s)) == Words(s)
  {
    WordsOfTrimStart(s);
    WordsOfTrimEnd(TrimStart(s));
  }
}
