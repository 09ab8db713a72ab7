/**
 What the natural-language query parser leaves over.  The passes are any producers of
 word-boundary-aligned matches; matches may overlap and nest.
 */
module QueryParser {
  import opened Common

  /** The part of the query from `start` up to `end`, claimed by a pass. */
  datatype Match = Match(start: int, end: int)

  datatype Span = Span(start: nat, end: nat)

  predicate IsWord(c: char) {
    'a' <= c <= 'z' || 'A' <= c <= 'Z' || '0' <= c <= '9' || c == '_'
  }

  function LowerChar(c: char): char {
    if 'A' <= c <= 'Z' then c - 'A' + 'a' else c
  }

  function Lower(s: string): string {
    seq(|s|, i requires 0 <= i < |s| => LowerChar(s[i]))
  }

  const StopWords: set<string> :=
    {"a", "an", "the", "and", "or", "of", "in", "on", "at", "to", "for", "with", "by", "from", "is", "was", "were",
     "be", "been", "being", "i", "we", "you", "they", "show", "find", "list", "tell", "me", "what", "which", "where",
     "when", "give", "search", "fetch", "get"}

  predicate Significant(w: string) {
    Lower(w) !in StopWords
  }

  // ---------------------------------------------------------------- words

  /** Where the run of word characters at `i` ends. */
  function WordEnd(s: string, i: nat): (e: nat)
    requires i <= |s|
    ensures i <= e <= |s| && (e < |s| ==> !IsWord(s[e]))
    ensures forall j :: i <= j < e ==> IsWord(s[j])
    decreases |s| - i
  {
    if i < |s| && IsWord(s[i]) then WordEnd(s, i + 1) else i
  }

  /** The words of `s` from position `i` on, as positions: what `\b\w+\b` finds. */
  function Tokens(s: string, i: nat): seq<Span>
    requires i <= |s|
    decreases |s| - i
  {
    if i == |s| then []
    else if IsWord(s[i]) then [Span(i, WordEnd(s, i))] + Tokens(s, WordEnd(s, i))
    else Tokens(s, i + 1)
  }

  function TextsFrom(s: string, i: nat): seq<string>
    requires i <= |s|
    decreases |s| - i
  {
    if i == |s| then []
    else if IsWord(s[i]) then [s[i..WordEnd(s, i)]] + TextsFrom(s, WordEnd(s, i))
    else TextsFrom(s, i + 1)
  }

  function Words(s: string): seq<string> {
    TextsFrom(s, 0)
  }

  /** A maximal run of word characters. */
  ghost predicate IsRun(s: string, t: Span) {
    && t.start < t.end <= |s| && (forall j :: t.start <= j < t.end ==> IsWord(s[j]))
    && (t.start > 0 ==> !IsWord(s[t.start - 1])) && (t.end < |s| ==> !IsWord(s[t.end]))
  }

  /** The tokens from a boundary on are exactly the maximal runs there, in order. */
  lemma {:induction false} TokensAreRuns(s: string, i: nat)
    requires i <= |s| && (0 < i < |s| && IsWord(s[i]) ==> !IsWord(s[i - 1]))
    ensures forall t :: t in Tokens(s, i) <==> IsRun(s, t) && t.start >= i
    ensures forall a, b :: 0 <= a < b < |Tokens(s, i)| ==> Tokens(s, i)[a].end < Tokens(s, i)[b].start
    decreases |s| - i
  {
    if i < |s| {
      if IsWord(s[i]) {
        var e := WordEnd(s, i);
        TokensAreRuns(s, e);
        forall t | IsRun(s, t) && t.start >= i ensures t == Span(i, e) || t.start >= e { RunsApart(s, i, e, t); }
        assert Tokens(s, i) == [Span(i, e)] + Tokens(s, e);
        forall b | 0 < b < |Tokens(s, i)| ensures e < Tokens(s, i)[b].start {
          assert Tokens(s, i)[b] == Tokens(s, e)[b - 1] && Tokens(s, e)[b - 1] in Tokens(s, e);
        }
      } else {
        TokensAreRuns(s, i + 1);
      }
    }
  }

  /** The words are the tokens' texts. */
  lemma {:induction false} WordsAreTokens(s: string, i: nat)
    requires i <= |s|
    ensures |TextsFrom(s, i)| == |Tokens(s, i)|
    ensures forall k :: 0 <= k < |Tokens(s, i)| ==> SliceAt(s, TextsFrom(s, i), Tokens(s, i), k)
    decreases |s| - i
  {
    if i < |s| {
      if IsWord(s[i]) {
        var e := WordEnd(s, i);
        WordsAreTokens(s, e);
        forall k | 0 <= k < |Tokens(s, i)| ensures SliceAt(s, TextsFrom(s, i), Tokens(s, i), k) {
          if k > 0 { assert SliceAt(s, TextsFrom(s, e), Tokens(s, e), k - 1); }
        }
      } else {
        WordsAreTokens(s, i + 1);
      }
    }
  }

  ghost predicate SliceAt(s: string, ws: seq<string>, ts: seq<Span>, k: nat)
    requires k < |ts| == |ws|
  {
    ts[k].start <= ts[k].end <= |s| && ws[k] == s[ts[k].start..ts[k].end]
  }

  lemma RunsApart(s: string, i: nat, e: nat, t: Span)
    requires i < |s| && IsRun(s, Span(i, e)) && IsRun(s, t) && t.start >= i
    ensures t == Span(i, e) || t.start >= e
  {
  }

  /** The same word in small letters. */
  ghost predicate SameButCase(w: string, v: string) {
    |w| == |v| && forall i :: 0 <= i < |w| ==>
      v[i] == if 'A' <= w[i] <= 'Z' then w[i] - 'A' + 'a' else w[i]
  }

  /** A word does not count exactly if it is one of the listed ones, in whatever case. */
  lemma SignificantExactly(w: string)
    ensures Significant(w) <==> forall v :: v in StopWords ==> !SameButCase(w, v)
  {
    assert SameButCase(w, Lower(w));
    forall v | v in StopWords && SameButCase(w, v) ensures v == Lower(w) {}
  }

  predicate Covers(m: Match, i: int) {
    m.start <= i < m.end
  }

  /** A token counts as claimed if a match covers its first character. */
  predicate Claimed(ms: seq<Match>, i: int) {
    exists k :: 0 <= k < |ms| && Covers(ms[k], i)
  }

  /** The words no match claims, in order. */
  function Unclaimed(s: string, ms: seq<Match>, i: nat): seq<string>
    requires i <= |s|
    decreases |s| - i
  {
    if i == |s| then []
    else if IsWord(s[i]) then
      (if Claimed(ms, i) then [] else [s[i..WordEnd(s, i)]]) + Unclaimed(s, ms, WordEnd(s, i))
    else Unclaimed(s, ms, i + 1)
  }

  /** A position that is not inside a word; `\b` finds nothing else. */
  predicate Boundary(s: string, p: int) {
    p <= 0 || p >= |s| || !(IsWord(s[p - 1]) && IsWord(s[p]))
  }

  ghost predicate Aligned(s: string, ms: seq<Match>) {
    forall k :: 0 <= k < |ms| ==> Boundary(s, ms[k].start) && Boundary(s, ms[k].end)
  }

  // ---------------------------------------------------------------- blanking

  function Blanked(s: string, ms: seq<Match>): string {
    seq(|s|, i requires 0 <= i < |s| => if Claimed(ms, i) then ' ' else s[i])
  }

  /** Inside a word a match covers all of it or none of it. */
  lemma {:induction false} WordWhole(s: string, m: Match, i: nat, j: nat)
    requires Boundary(s, m.start) && Boundary(s, m.end)
    requires i <= j < |s| && forall k :: i <= k <= j ==> IsWord(s[k])
    ensures Covers(m, i) <==> Covers(m, j)
  {
    if i < j {
      WordWhole(s, m, i, j - 1);
      assert IsWord(s[j - 1]) && IsWord(s[j]);
    }
  }

  lemma ClaimedWhole(s: string, ms: seq<Match>, i: nat, j: nat)
    requires Aligned(s, ms) && i <= j < |s| && forall k :: i <= k <= j ==> IsWord(s[k])
    ensures Claimed(ms, i) <==> Claimed(ms, j)
  {
    forall k | 0 <= k < |ms| ensures Covers(ms[k], i) <==> Covers(ms[k], j) { WordWhole(s, ms[k], i, j); }
  }

  /** An unclaimed word is still there after blanking; a claimed one is all blanks. */
  lemma BlankedWord(s: string, ms: seq<Match>, i: nat)
    requires Aligned(s, ms) && i < |s| && IsWord(s[i])
    ensures var b, e := Blanked(s, ms), WordEnd(s, i);
      && (Claimed(ms, i) ==> forall j :: i <= j < e ==> !IsWord(b[j]))
      && (!Claimed(ms, i) ==> WordEnd(b, i) == e && b[i..e] == s[i..e])
  {
    var b, e := Blanked(s, ms), WordEnd(s, i);
    forall j | i <= j < e ensures Claimed(ms, j) <==> Claimed(ms, i) { ClaimedWhole(s, ms, i, j); }
    if !Claimed(ms, i) { RunEnds(b, i, e); }
  }

  lemma {:induction false} RunEnds(s: string, i: nat, e: nat)
    requires i <= e <= |s| && (forall j :: i <= j < e ==> IsWord(s[j])) && (e < |s| ==> !IsWord(s[e]))
    ensures WordEnd(s, i) == e
    decreases e - i
  {
    if i < e { RunEnds(s, i + 1, e); }
  }

  lemma {:induction false} SkipBlanks(s: string, i: nat, e: nat)
    requires i <= e <= |s| && forall j :: i <= j < e ==> !IsWord(s[j])
    ensures TextsFrom(s, i) == TextsFrom(s, e)
    decreases e - i
  {
    if i < e { SkipBlanks(s, i + 1, e); }
  }

  /** The words left after blanking are exactly the unclaimed ones, in order. */
  lemma {:induction false} BlankingKeepsUnclaimed(s: string, ms: seq<Match>, i: nat)
    requires Aligned(s, ms) && i <= |s|
    ensures TextsFrom(Blanked(s, ms), i) == Unclaimed(s, ms, i)
    decreases |s| - i
  {
    var b := Blanked(s, ms);
    if i < |s| {
      if IsWord(s[i]) {
        var e := WordEnd(s, i);
        BlankedWord(s, ms, i);
        BlankingKeepsUnclaimed(s, ms, e);
        if Claimed(ms, i) { SkipBlanks(b, i, e); }
      } else {
        BlankingKeepsUnclaimed(s, ms, i + 1);
      }
    }
  }

  // ---------------------------------------------------------------- collapsing white space

  function SpaceEnd(s: string, i: nat): (e: nat)
    requires i <= |s|
    ensures i <= e <= |s| && forall j :: i <= j < e ==> IsSpace(s[j])
    ensures i < |s| && IsSpace(s[i]) ==> e > i
    decreases |s| - i
  {
    if i < |s| && IsSpace(s[i]) then SpaceEnd(s, i + 1) else i
  }

  /** Every run of white space becomes one blank. */
  function Squeezed(s: string, i: nat): string
    requires i <= |s|
    decreases |s| - i
  {
    if i == |s| then ""
    else if IsSpace(s[i]) then " " + Squeezed(s, SpaceEnd(s, i))
    else [s[i]] + Squeezed(s, i + 1)
  }

  function StripLeft(s: string): string {
    if s != [] && IsSpace(s[0]) then StripLeft(s[1..]) else s
  }

  function StripRight(s: string): string {
    if s != [] && IsSpace(s[|s| - 1]) then StripRight(s[..|s| - 1]) else s
  }

  /** `re.sub(r"\s+", " ", s).strip()`. */
  function Collapsed(s: string): string {
    StripRight(StripLeft(Squeezed(s, 0)))
  }

  /** Words do not depend on what stands before them. */
  lemma {:induction false} TextsShift(s: string, n: nat, i: nat)
    requires n <= i <= |s|
    ensures TextsFrom(s[n..], i - n) == TextsFrom(s, i)
    decreases |s| - i
  {
    if i < |s| {
      if IsWord(s[i]) {
        var e := WordEnd(s, i);
        RunEnds(s[n..], i - n, e - n);
        assert s[n..][i - n..e - n] == s[i..e];
        TextsShift(s, n, e);
      } else {
        TextsShift(s, n, i + 1);
      }
    }
  }

  /** A character that is no word character adds no word. */
  lemma WordsAfterGap(c: char, s: string)
    requires !IsWord(c)
    ensures Words([c] + s) == Words(s)
  {
    var t := [c] + s;
    assert t[1..] == s;
    TextsShift(t, 1, 1);
  }

  lemma WordsAfterWord(w: string, s: string)
    requires w != [] && (forall j :: 0 <= j < |w| ==> IsWord(w[j])) && (s != [] ==> !IsWord(s[0]))
    ensures Words(w + s) == [w] + Words(s)
  {
    var t := w + s;
    RunEnds(t, 0, |w|);
    assert t[0..|w|] == w && t[|w|..] == s;
    TextsShift(t, |w|, |w|);
  }

  lemma {:induction false} SqueezedWord(s: string, i: nat, e: nat)
    requires i <= e <= |s| && forall j :: i <= j < e ==> IsWord(s[j])
    ensures Squeezed(s, i) == s[i..e] + Squeezed(s, e)
    decreases e - i
  {
    if i < e {
      SqueezedWord(s, i + 1, e);
      var rest := Squeezed(s, e);
      assert Squeezed(s, i) == [s[i]] + (s[i + 1..e] + rest);
      assert [s[i]] + (s[i + 1..e] + rest) == ([s[i]] + s[i + 1..e]) + rest;
      assert s[i..e] == [s[i]] + s[i + 1..e];
    } else {
      assert s[i..e] == [];
    }
  }

  lemma {:induction false} SqueezingKeepsWords(s: string, i: nat)
    requires i <= |s|
    ensures Words(Squeezed(s, i)) == TextsFrom(s, i)
    ensures i < |s| && !IsWord(s[i]) ==> Squeezed(s, i) != [] && !IsWord(Squeezed(s, i)[0])
    decreases |s| - i
  {
    if i < |s| {
      if IsWord(s[i]) {
        var e := WordEnd(s, i);
        SqueezedWord(s, i, e);
        SqueezingKeepsWords(s, e);
        WordsAfterWord(s[i..e], Squeezed(s, e));
      } else if IsSpace(s[i]) {
        var e := SpaceEnd(s, i);
        SqueezingKeepsWords(s, e);
        WordsAfterGap(' ', Squeezed(s, e));
        SkipBlanks(s, i, e);
      } else {
        SqueezingKeepsWords(s, i + 1);
        WordsAfterGap(s[i], Squeezed(s, i + 1));
      }
    }
  }

  lemma {:induction false} StripLeftKeepsWords(s: string)
    ensures Words(StripLeft(s)) == Words(s)
  {
    if s != [] && IsSpace(s[0]) {
      StripLeftKeepsWords(s[1..]);
      WordsAfterGap(s[0], s[1..]);
      assert [s[0]] + s[1..] == s;
    }
  }

  lemma {:induction false} TextsBeforeGap(s: string, c: char, i: nat)
    requires i <= |s| && !IsWord(c)
    ensures TextsFrom(s + [c], i) == TextsFrom(s, i)
    decreases |s| - i
  {
    if i < |s| {
      if IsWord(s[i]) {
        var e := WordEnd(s, i);
        RunEnds(s + [c], i, e);
        assert (s + [c])[i..e] == s[i..e];
        TextsBeforeGap(s, c, e);
      } else {
        TextsBeforeGap(s, c, i + 1);
      }
    }
  }

  lemma {:induction false} StripRightKeepsWords(s: string)
    ensures Words(StripRight(s)) == Words(s)
  {
    if s != [] && IsSpace(s[|s| - 1]) {
      var rest := s[..|s| - 1];
      StripRightKeepsWords(rest);
      TextsBeforeGap(rest, s[|s| - 1], 0);
      assert rest + [s[|s| - 1]] == s;
    }
  }

  lemma CollapsingKeepsWords(s: string)
    ensures Words(Collapsed(s)) == Words(s)
  {
    SqueezingKeepsWords(s, 0);
    StripLeftKeepsWords(Squeezed(s, 0));
    StripRightKeepsWords(StripLeft(Squeezed(s, 0)));
  }

  // ---------------------------------------------------------------- the parser's last two steps

  /** `_remaining_text`: blank the matched characters in place, then collapse. */
  method RemainingText(query: string, ms: seq<Match>) returns (r: string)
    ensures r == Collapsed(Blanked(query, ms))
    ensures Aligned(query, ms) ==> Words(r) == Unclaimed(query, ms, 0)
  {
    var chars := new char[|query|](i requires 0 <= i < |query| => query[i]);
    for k := 0 to |ms|
      invariant chars[..] == Blanked(query, ms[..k])
    {
      BlankMatch(chars, ms[k]);
      BlankedOneMore(query, ms, k);
    }
    assert ms[..|ms|] == ms;
    r := Collapsed(chars[..]);
    CollapsingKeepsWords(Blanked(query, ms));
    if Aligned(query, ms) { BlankingKeepsUnclaimed(query, ms, 0); }
  }

  /** The inner loop: a match may reach beyond the text on either side. */
  method BlankMatch(chars: array<char>, m: Match)
    modifies chars
    ensures forall i :: 0 <= i < chars.Length ==> chars[i] == if Covers(m, i) then ' ' else old(chars[i])
  {
    var i := m.start;
    while i < m.end
      invariant m.start <= i
      invariant i > m.start ==> i <= m.end
      invariant forall j :: 0 <= j < chars.Length ==> chars[j] == if m.start <= j < i then ' ' else old(chars[j])
    {
      if 0 <= i < chars.Length { chars[i] := ' '; }
      i := i + 1;
    }
  }

  lemma BlankedOneMore(s: string, ms: seq<Match>, k: nat)
    requires k < |ms|
    ensures forall i :: 0 <= i < |s| ==>
      Blanked(s, ms[..k + 1])[i] == if Covers(ms[k], i) then ' ' else Blanked(s, ms[..k])[i]
  {
    var now, next := ms[..k], ms[..k + 1];
    forall i | 0 <= i < |s| ensures Claimed(next, i) <==> Claimed(now, i) || Covers(ms[k], i) {
      if Claimed(now, i) {
        var m :| 0 <= m < |now| && Covers(now[m], i);
        assert next[m] == now[m];
      }
      if Covers(ms[k], i) { assert Covers(next[k], i); }
    }
  }

  function CountSignificant(ws: seq<string>): nat {
    if ws == [] then 0 else (if Significant(ws[0]) then 1 else 0) + CountSignificant(ws[1..])
  }

  /** The significant words a match claims. */
  function Matched(s: string, ms: seq<Match>, i: nat): nat
    requires i <= |s|
    decreases |s| - i
  {
    if i == |s| then 0
    else if IsWord(s[i]) then
      (if Claimed(ms, i) && Significant(s[i..WordEnd(s, i)]) then 1 else 0) + Matched(s, ms, WordEnd(s, i))
    else Matched(s, ms, i + 1)
  }

  /** Every significant word is claimed or left over, never both. */
  lemma {:induction false} WordsBalance(s: string, ms: seq<Match>, i: nat)
    requires i <= |s|
    ensures CountSignificant(TextsFrom(s, i)) == Matched(s, ms, i) + CountSignificant(Unclaimed(s, ms, i))
    decreases |s| - i
  {
    if i < |s| {
      if IsWord(s[i]) {
        var e := WordEnd(s, i);
        WordsBalance(s, ms, e);
        CountFirst(s[i..e], TextsFrom(s, e));
        CountFirst(s[i..e], Unclaimed(s, ms, e));
        assert [] + Unclaimed(s, ms, e) == Unclaimed(s, ms, e);
      } else {
        WordsBalance(s, ms, i + 1);
      }
    }
  }

  lemma CountFirst(w: string, ws: seq<string>)
    ensures CountSignificant([w] + ws) == (if Significant(w) then 1 else 0) + CountSignificant(ws)
  {
    assert ([w] + ws)[1..] == ws;
  }

  /** What the counting loop has seen of the tokens from `i` on still to come. */
  function MatchedTokens(s: string, ms: seq<Match>, ts: seq<Span>): (r: (nat, nat))
    requires forall t :: t in ts ==> t.start <= t.end <= |s|
  {
    if ts == [] then (0, 0)
    else
      var rest := MatchedTokens(s, ms, ts[1..]);
      var t := ts[0];
      if !Significant(s[t.start..t.end]) then rest
      else (rest.0 + (if Claimed(ms, t.start) then 1 else 0), rest.1 + 1)
  }

  lemma {:induction false} TokensCount(s: string, ms: seq<Match>, i: nat)
    requires i <= |s|
    ensures forall t :: t in Tokens(s, i) ==> t.start <= t.end <= |s|
    ensures MatchedTokens(s, ms, Tokens(s, i)) == (Matched(s, ms, i), CountSignificant(TextsFrom(s, i)))
    decreases |s| - i
  {
    if i < |s| {
      if IsWord(s[i]) {
        var e := WordEnd(s, i);
        TokensCount(s, ms, e);
        assert ([Span(i, e)] + Tokens(s, e))[1..] == Tokens(s, e);
        CountFirst(s[i..e], TextsFrom(s, e));
      } else {
        TokensCount(s, ms, i + 1);
      }
    }
  }

  /**
   `_compute_confidence`: the share of significant words that are claimed.  It lies between 0 and
   1, and for aligned matches it is 1 exactly if the remainder has no significant word.
   */
  method ComputeConfidence(query: string, ms: seq<Match>) returns (c: real)
    ensures 0.0 <= c <= 1.0
    ensures var total := CountSignificant(Words(query));
      if total == 0 then c == 0.0 else c == Matched(query, ms, 0) as real / total as real
    ensures Aligned(query, ms) && CountSignificant(Words(query)) > 0 ==>
      (c == 1.0 <==> CountSignificant(Words(Collapsed(Blanked(query, ms)))) == 0)
  {
    var tokens := Tokens(query, 0);
    TokensCount(query, ms, 0);
    WordsBalance(query, ms, 0);
    CollapsingKeepsWords(Blanked(query, ms));
    if Aligned(query, ms) { BlankingKeepsUnclaimed(query, ms, 0); }
    var matched, total := CountTokens(query, ms, tokens);
    if total == 0 { return 0.0; }
    c := matched as real / total as real;
    ShareInUnit(matched, total);
  }

  method CountTokens(query: string, ms: seq<Match>, tokens: seq<Span>) returns (matched: nat, total: nat)
    requires forall t :: t in tokens ==> t.start <= t.end <= |query|
    ensures (matched, total) == MatchedTokens(query, ms, tokens)
  {
    matched, total := 0, 0;
    assert tokens[0..] == tokens;
    for i := 0 to |tokens|
      invariant MatchedTokens(query, ms, tokens) ==
        (matched + MatchedTokens(query, ms, tokens[i..]).0, total + MatchedTokens(query, ms, tokens[i..]).1)
    {
      var t := tokens[i];
      assert t in tokens && tokens[i..][0] == t && tokens[i..][1..] == tokens[i + 1..];
      if Significant(query[t.start..t.end]) {
        total := total + 1;
        if Claimed(ms, t.start) { matched := matched + 1; }
      }
    }
  }

  lemma ShareInUnit(part: nat, whole: nat)
    requires 0 < whole && part <= whole
    ensures 0.0 <= part as real / whole as real <= 1.0
    ensures part as real / whole as real == 1.0 <==> part == whole
  {
    var q := part as real / whole as real;
    assert q * whole as real == part as real;
  }

  /**
   Word accounting over the whole parse: whatever aligned matches the passes produced, the words of
   the remainder are the unclaimed words of the query in order, and claimed and left-over
   significant words add up to all of them.
   */
  lemma WordsAccountedFor(query: string, ms: seq<Match>)
    requires Aligned(query, ms)
    ensures Words(Collapsed(Blanked(query, ms))) == Unclaimed(query, ms, 0)
    ensures CountSignificant(Words(query)) ==
            Matched(query, ms, 0) + CountSignificant(Words(Collapsed(Blanked(query, ms))))
  {
    CollapsingKeepsWords(Blanked(query, ms));
    BlankingKeepsUnclaimed(query, ms, 0);
    WordsBalance(query, ms, 0);
  }

  /** A match that cuts a word in two leaves part of it behind. */
  lemma CutWordLeavesAPart()
    ensures !Aligned("ab", [Match(0, 1)])
    ensures Words(Blanked("ab", [Match(0, 1)])) == ["b"] && Unclaimed("ab", [Match(0, 1)], 0) == []
  {
    var s, ms := "ab", [Match(0, 1)];
    assert !Boundary(s, ms[0].end);
    var b := Blanked(s, ms);
    assert Covers(ms[0], 0);
    assert b == " b";
    RunEnds(b, 1, 2);
    RunEnds(s, 0, 2);
    assert b[1..2] == "b";
  }
}
