/** Rewriting retrieved text into inert data: markers that could close the
    evidence block, impersonate a role or forge a citation are replaced. */
module Neutralize {
  import opened Wrappers

  const MARKERS: seq<string> := [
    "</evidence", "<evidence", "<system", "</system", "<assistant", "</assistant", "<user", "</user",
    "[inst]", "[/inst]", "```", "<<<", ">>>"]

  const REMOVED: string := "[removed]"

  predicate IsAscii(s: string)
  {
    forall i :: 0 <= i < |s| ==> s[i] < 128 as char
  }

  function LowerChar(c: char): char
  {
    if 'A' <= c <= 'Z' then c + 32 as char else c
  }

  predicate IsDigit(c: char)
  {
    '0' <= c <= '9'
  }

  /** `s` starts with `m`, in any letter case. */
  predicate StartsWith(s: string, m: string)
  {
    |m| <= |s| && forall i :: 0 <= i < |m| ==> LowerChar(s[i]) == m[i]
  }

  /** The number of digits at the start of `s`. */
  function Digits(s: string): (n: nat)
    ensures n <= |s| && (forall i :: 0 <= i < n ==> IsDigit(s[i])) && (n < |s| ==> !IsDigit(s[n]))
  {
    if s == [] || !IsDigit(s[0]) then 0 else 1 + Digits(s[1..])
  }

  /** A citation tag: `[E`, some digits and `]`. */
  predicate IsTag(s: string)
  {
    StartsWith(s, "[e") && Digits(s[2..]) > 0 && 2 + Digits(s[2..]) < |s| && s[2 + Digits(s[2..])] == ']'
  }

  /** The first marker of the list, from `k` on, that `s` starts with. */
  function FirstMarker(s: string, k: nat): (r: Option<nat>)
    requires k <= |MARKERS|
    ensures r.Some? ==> k <= r.value < |MARKERS| && StartsWith(s, MARKERS[r.value])
    ensures r.None? ==> forall j :: k <= j < |MARKERS| ==> !StartsWith(s, MARKERS[j])
    decreases |MARKERS| - k
  {
    if k == |MARKERS| then None else if StartsWith(s, MARKERS[k]) then Some(k) else FirstMarker(s, k + 1)
  }

  /** How many characters of a marker or tag stand at the start of `s`; 0 for none. */
  function HitLen(s: string): (n: nat)
    ensures n <= |s|
  {
    var m := FirstMarker(s, 0);
    if m.Some? then |MARKERS[m.value]| else if IsTag(s) then 3 + Digits(s[2..]) else 0
  }

  /** A marker or a forged citation stands at the start of `s`. */
  predicate IsHit(s: string)
  {
    (exists j :: 0 <= j < |MARKERS| && StartsWith(s, MARKERS[j])) || IsTag(s)
  }

  lemma HitLenIsHit(s: string)
    ensures HitLen(s) > 0 <==> IsHit(s)
  {
  }

  /** The neutralized text. */
  function Neutralized(s: string): string
    decreases |s|
  {
    if s == [] then []
    else if HitLen(s) > 0 then REMOVED + Neutralized(s[HitLen(s)..])
    else [s[0]] + Neutralized(s[1..])
  }

  /** No marker in any letter case and no citation tag, anywhere. */
  ghost predicate IsInert(s: string)
  {
    forall i :: 0 <= i < |s| ==> !IsHit(s[i..])
  }

  // ---- why the output is inert ---------------------------------------------------------

  /** Past a replacement nothing of it can be taken for the rest of a marker,
      so what the output starts with, up to a bracket, the input starts with. */
  lemma {:induction false} OutputPrefixIsInputPrefix(s: string, m: string)
    requires StartsWith(Neutralized(s), m) && '[' !in m
    ensures StartsWith(s, m)
    decreases |m|
  {
    if m != [] {
      var out := Neutralized(s);
      assert LowerChar(out[0]) == m[0] && m[0] in m;
      assert REMOVED[0] == '[';
      assert HitLen(s) == 0;
      assert StartsWith(out[1..], m[1..]);
      OutputPrefixIsInputPrefix(s[1..], m[1..]);
    }
  }

  lemma StartsWithTail(c: char, s: string, m: string)
    requires m != []
    ensures StartsWith([c] + s, m) <==> LowerChar(c) == m[0] && StartsWith(s, m[1..])
  {
  }

  /** A marker begins with a bracket, an angle or a backtick, has no further
      bracket, and after an opening bracket goes on with `i` or `/`. */
  predicate IsMarkerShape(m: string)
  {
    && |m| > 1 && (m[0] == '<' || m[0] == '[' || m[0] == '`' || m[0] == '>')
    && '[' !in m[1..] && (m[0] == '[' ==> m[1] == 'i' || m[1] == '/')
  }

  lemma MarkerShapes(j: nat)
    requires j < |MARKERS|
    ensures IsMarkerShape(MARKERS[j])
  {
    forall k | 0 <= k < 7
      ensures IsMarkerShape(MARKERS[k])
    {
    }
    forall k | 7 <= k < |MARKERS|
      ensures IsMarkerShape(MARKERS[k])
    {
    }
  }

  /** The text of the tag at the start of `s`, after its bracket, in lower case. */
  function TagTail(s: string): string
    requires IsTag(s)
  {
    ['e'] + s[2..2 + Digits(s[2..])] + [']']
  }

  lemma TagStartsWithTail(s: string)
    requires IsTag(s)
    ensures StartsWith(s[1..], TagTail(s)) && '[' !in TagTail(s)
  {
  }

  lemma {:induction false} DigitsThen(s: string, n: nat)
    requires n < |s| && (forall i :: 0 <= i < n ==> IsDigit(s[i])) && !IsDigit(s[n])
    ensures Digits(s) == n
  {
  }

  /** What starts with a bracket and the tail of a tag starts with a tag. */
  lemma TailMakesTag(c: char, s: string, t: string)
    requires IsTag(t) && LowerChar(c) == '[' && StartsWith(s, TagTail(t))
    ensures IsTag([c] + s)
  {
    var n := Digits(t[2..]);
    var whole := [c] + s;
    assert TagTail(t)[0] == 'e' && TagTail(t)[n + 1] == ']';
    assert LowerChar(s[0]) == 'e' && LowerChar(s[n + 1]) == ']';
    forall i | 0 <= i < n
      ensures IsDigit(whole[2..][i])
    {
      assert LowerChar(s[i + 1]) == TagTail(t)[i + 1] == t[2..][i];
    }
    assert whole[2..][n] == s[n + 1];
    DigitsThen(whole[2..], n);
  }

  /** A character that is copied does not become the start of a marker or tag. */
  lemma CopiedIsNotHit(s: string)
    requires s != [] && !IsHit(s)
    ensures !IsHit([s[0]] + Neutralized(s[1..]))
  {
    var out := [s[0]] + Neutralized(s[1..]);
    assert s == [s[0]] + s[1..];
    forall j | 0 <= j < |MARKERS|
      ensures !StartsWith(out, MARKERS[j])
    {
      CopiedIsNotMarker(s, j);
    }
    CopiedIsNotTag(s);
  }

  lemma CopiedIsNotMarker(s: string, j: nat)
    requires s != [] && j < |MARKERS| && !StartsWith(s, MARKERS[j])
    ensures !StartsWith([s[0]] + Neutralized(s[1..]), MARKERS[j])
  {
    var m := MARKERS[j];
    MarkerShapes(j);
    StartsWithTail(s[0], Neutralized(s[1..]), m);
    StartsWithTail(s[0], s[1..], m);
    assert s == [s[0]] + s[1..];
    if StartsWith(Neutralized(s[1..]), m[1..]) {
      OutputPrefixIsInputPrefix(s[1..], m[1..]);
    }
  }

  lemma CopiedIsNotTag(s: string)
    requires s != [] && !IsTag(s)
    ensures !IsTag([s[0]] + Neutralized(s[1..]))
  {
    var out := [s[0]] + Neutralized(s[1..]);
    assert s == [s[0]] + s[1..];
    if IsTag(out) {
      TagStartsWithTail(out);
      assert out[1..] == Neutralized(s[1..]);
      OutputPrefixIsInputPrefix(s[1..], TagTail(out));
      TailMakesTag(s[0], s[1..], out);
    }
  }

  /** Nothing inside the replacement is the start of a marker or tag. */
  lemma ReplacementIsNotHit(t: string, i: nat)
    requires i < |REMOVED|
    ensures !IsHit((REMOVED + t)[i..])
  {
    var rest := (REMOVED + t)[i..];
    assert rest[0] == REMOVED[i] && (i == 0 ==> rest[1] == 'r');
    forall j | 0 <= j < |MARKERS|
      ensures !StartsWith(rest, MARKERS[j])
    {
      MarkerShapes(j);
    }
  }

  lemma InertAfterReplacement(t: string)
    requires IsInert(t)
    ensures IsInert(REMOVED + t)
  {
    var out := REMOVED + t;
    forall i | 0 <= i < |out|
      ensures !IsHit(out[i..])
    {
      if i < |REMOVED| { ReplacementIsNotHit(t, i); } else { assert out[i..] == t[i - |REMOVED|..]; }
    }
  }

  lemma InertAfterCopy(c: char, t: string)
    requires IsInert(t) && !IsHit([c] + t)
    ensures IsInert([c] + t)
  {
    var out := [c] + t;
    forall i | 0 <= i < |out|
      ensures !IsHit(out[i..])
    {
      if i == 0 { assert out[0..] == out; } else { assert out[i..] == t[i - 1..]; }
    }
  }

  /** For every text the output has no marker in any letter case and no
      citation tag, not even across what was replaced. */
  lemma {:induction false} OutputIsInert(s: string)
    ensures IsInert(Neutralized(s))
    decreases |s|
  {
    if s != [] {
      HitLenIsHit(s);
      if HitLen(s) > 0 {
        OutputIsInert(s[HitLen(s)..]);
        InertAfterReplacement(Neutralized(s[HitLen(s)..]));
      } else {
        OutputIsInert(s[1..]);
        CopiedIsNotHit(s);
        InertAfterCopy(s[0], Neutralized(s[1..]));
      }
    }
  }

  /** A text is left alone exactly when it is inert already. */
  lemma {:induction false} UnchangedIffInert(s: string)
    ensures Neutralized(s) == s <==> IsInert(s)
    decreases |s|
  {
    if IsInert(s) && s != [] {
      HitLenIsHit(s);
      assert s[0..] == s;
      forall i | 0 <= i < |s[1..]|
        ensures !IsHit(s[1..][i..])
      {
        assert s[1..][i..] == s[i + 1..];
      }
      UnchangedIffInert(s[1..]);
    }
    if Neutralized(s) == s {
      OutputIsInert(s);
    }
  }

  /** Neutralizing twice changes nothing more. */
  lemma NeutralizedTwice(s: string)
    ensures Neutralized(Neutralized(s)) == Neutralized(s)
  {
    OutputIsInert(s);
    UnchangedIffInert(Neutralized(s));
  }

  // ---- the rewriter ----------------------------------------------------------------------

  /** The text with every stretch that `hit` measures replaced. */
  function Rewritten(hit: string -> nat, s: string): string
    decreases |s|
  {
    if s == [] then []
    else if 0 < hit(s) <= |s| then REMOVED + Rewritten(hit, s[hit(s)..])
    else [s[0]] + Rewritten(hit, s[1..])
  }

  function Hits(): string -> nat
  {
    (s: string) => HitLen(s)
  }

  lemma {:induction false} RewrittenIsNeutralized(s: string)
    ensures Rewritten(Hits(), s) == Neutralized(s)
    decreases |s|
  {
    if s != [] {
      if HitLen(s) > 0 { RewrittenIsNeutralized(s[HitLen(s)..]); } else { RewrittenIsNeutralized(s[1..]); }
    }
  }

  lemma MoveOn(hit: string -> nat, out: string, part: string, text: string, i: nat, covered: nat)
    requires i + covered <= |text| && out + Rewritten(hit, text[i..]) == Rewritten(hit, text)
    requires Rewritten(hit, text[i..]) == part + Rewritten(hit, text[i..][covered..])
    ensures out + part + Rewritten(hit, text[i + covered..]) == Rewritten(hit, text)
  {
  }

  /** Goes through the text once, replacing what `hit` measures. */
  method Rewrite(hit: string -> nat, text: string) returns (out: string)
    ensures out == Rewritten(hit, text)
  {
    out := [];
    var i := 0;
    assert text[0..] == text;
    while i < |text|
      invariant i <= |text| && out + Rewritten(hit, text[i..]) == Rewritten(hit, text)
      decreases |text| - i
    {
      var rest := text[i..];
      var part, covered := [rest[0]], 1;
      if 0 < hit(rest) <= |rest| {
        part, covered := REMOVED, hit(rest);
      }
      MoveOn(hit, out, part, text, i, covered);
      out, i := out + part, i + covered;
    }
  }

  /** The neutralized text: inert, and unchanged if it was inert. */
  method NeutralizeText(text: string) returns (out: string)
    requires IsAscii(text)
    ensures out == Neutralized(text) && IsInert(out)
    ensures out == text <==> IsInert(text)
  {
    out := Rewrite(Hits(), text);
    RewrittenIsNeutralized(text);
    OutputIsInert(text);
    UnchangedIffInert(text);
  }

  // ---- what inert means -------------------------------------------------------------------------

  /** `l` is `c`, in lower case if it is an ASCII letter. */
  ghost predicate IsLowerOf(c: char, l: char)
  {
    l as int == if 65 <= c as int <= 90 then c as int + 32 else c as int
  }

  /** `m` stands at place `i` of the text, in any letter case. */
  ghost predicate MarkerAt(s: string, i: nat, m: string)
  {
    i + |m| <= |s| && forall k :: 0 <= k < |m| ==> IsLowerOf(s[i + k], m[k])
  }

  /** A citation with `n` digits stands at place `i` of the text. */
  ghost predicate TagAt(s: string, i: nat, n: nat)
  {
    && n > 0 && i + n + 3 <= |s| && s[i] == '[' && (s[i + 1] == 'E' || s[i + 1] == 'e') && s[i + 2 + n] == ']'
    && forall k :: i + 2 <= k < i + 2 + n ==> 48 <= s[k] as int <= 57
  }

  lemma LowerMeans(c: char, l: char)
    ensures LowerChar(c) == l <==> IsLowerOf(c, l)
  {
  }

  lemma StartsWithMeans(s: string, i: nat, m: string)
    requires i <= |s|
    ensures StartsWith(s[i..], m) <==> MarkerAt(s, i, m)
  {
    forall k | 0 <= k < |m| && i + k < |s|
      ensures LowerChar(s[i..][k]) == m[k] <==> IsLowerOf(s[i + k], m[k])
    {
      LowerMeans(s[i + k], m[k]);
    }
  }

  lemma DigitsMeans(s: string, n: nat)
    requires n < |s| && !IsDigit(s[n]) && forall k :: 0 <= k < n ==> IsDigit(s[k])
    ensures Digits(s) == n
  {
  }

  lemma TagMeans(s: string, i: nat, n: nat)
    requires i <= |s|
    ensures TagAt(s, i, n) <==> IsTag(s[i..]) && Digits(s[i..][2..]) == n
  {
    StartsWithMeans(s, i, "[e");
    var rest := s[i..];
    if TagAt(s, i, n) {
      assert MarkerAt(s, i, "[e");
      forall k | 0 <= k < n
        ensures IsDigit(rest[2..][k])
      {
        assert rest[2..][k] == s[i + 2 + k];
      }
      assert rest[2..][n] == s[i + 2 + n];
      DigitsMeans(rest[2..], n);
    }
    if StartsWith(rest, "[e") {
      assert IsLowerOf(s[i + 0], "[e"[0]) && IsLowerOf(s[i + 1], "[e"[1]);
    }
  }

  /** A marker, in any letter case, or a citation stands at place `i` of the text. */
  ghost predicate StandsAt(s: string, i: nat)
  {
    (exists j :: 0 <= j < |MARKERS| && MarkerAt(s, i, MARKERS[j])) || exists n: nat :: TagAt(s, i, n)
  }

  lemma HitMeans(s: string, i: nat)
    requires i <= |s|
    ensures IsHit(s[i..]) <==> StandsAt(s, i)
  {
    forall j | 0 <= j < |MARKERS|
      ensures StartsWith(s[i..], MARKERS[j]) <==> MarkerAt(s, i, MARKERS[j])
    {
      StartsWithMeans(s, i, MARKERS[j]);
    }
    forall n: nat
      ensures TagAt(s, i, n) <==> IsTag(s[i..]) && Digits(s[i..][2..]) == n
    {
      TagMeans(s, i, n);
    }
    if IsTag(s[i..]) {
      assert TagAt(s, i, Digits(s[i..][2..]));
    }
  }

  /** Inert texts are exactly those with no marker and no citation anywhere. */
  lemma InertIsClean(s: string)
    ensures IsInert(s) <==> forall i: nat :: i < |s| ==> !StandsAt(s, i)
  {
    forall i: nat | i < |s|
      ensures IsHit(s[i..]) <==> StandsAt(s, i)
    {
      HitMeans(s, i);
    }
  }

  /** The `j`-th marker is the first of the list that the text starts with. */
  ghost predicate IsFirstMarker(s: string, j: nat)
  {
    && j < |MARKERS| && MarkerAt(s, 0, MARKERS[j])
    && forall k :: 0 <= k < j ==> !MarkerAt(s, 0, MARKERS[k])
  }

  /** What is replaced is the first listed marker that stands there, and no more,
      or else the whole citation; nothing where neither stands. */
  lemma HitLenMeans(s: string)
    ensures forall j: nat :: IsFirstMarker(s, j) ==> HitLen(s) == |MARKERS[j]|
    ensures (forall j :: 0 <= j < |MARKERS| ==> !MarkerAt(s, 0, MARKERS[j])) ==>
      (forall n: nat :: TagAt(s, 0, n) ==> HitLen(s) == n + 3) &&
      ((forall n: nat :: !TagAt(s, 0, n)) ==> HitLen(s) == 0)
  {
    assert s[0..] == s;
    forall j | 0 <= j < |MARKERS|
      ensures StartsWith(s, MARKERS[j]) <==> MarkerAt(s, 0, MARKERS[j])
    {
      StartsWithMeans(s, 0, MARKERS[j]);
    }
    forall n: nat
      ensures TagAt(s, 0, n) <==> IsTag(s) && Digits(s[2..]) == n
    {
      TagMeans(s, 0, n);
    }
    if IsTag(s) {
      assert TagAt(s, 0, Digits(s[2..]));
    }
    FirstIsFirst(s, 0);
  }

  lemma {:induction false} FirstIsFirst(s: string, from: nat)
    requires from <= |MARKERS|
    ensures FirstMarker(s, from).Some? ==>
      forall k :: from <= k < FirstMarker(s, from).value ==> !StartsWith(s, MARKERS[k])
    decreases |MARKERS| - from
  {
    if from < |MARKERS| && !StartsWith(s, MARKERS[from]) {
      FirstIsFirst(s, from + 1);
    }
  }
}
