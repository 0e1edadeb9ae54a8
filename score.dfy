/** The similarity score the home page reads out of an analysis text: seven
    regular expressions are tried in a fixed order, and the first one whose
    first match captures a number from 0 to 100 gives the score.

    Each expression has the shape `before (\d+) after`, where `before` and
    `after` are made of case-insensitive words, `\b`, `%`, and the starred
    classes `\s*` and `[:\s-]*`. In all seven, a starred class, and the
    captured `\d+`, is followed by something that cannot begin with a
    character of that class (`NoBacktracking`), so taking the longest run at
    each step finds the match the backtracking regular-expression engine
    finds, with the same capture. */
module Score {
  import opened Wrappers
  import opened Text

  /** The character classes that occur under a star or a plus. */
  datatype Class = Space | Separator | Digits

  /** JavaScript's `\s`: the white space and line terminator characters. */
  predicate IsSpace(c: char)
  {
    || c == '\t' || c == '\n' || c == '\U{000B}' || c == '\U{000C}' || c == '\r' || c == ' '
    || c == '\U{00A0}' || c == '\U{1680}' || '\U{2000}' <= c <= '\U{200A}'
    || c == '\U{2028}' || c == '\U{2029}' || c == '\U{202F}' || c == '\U{205F}'
    || c == '\U{3000}' || c == '\U{FEFF}'
  }

  predicate In(cls: Class, c: char)
  {
    match cls
    case Space => IsSpace(c)
    case Separator => c == ':' || c == '-' || IsSpace(c)
    case Digits => IsDigit(c)
  }

  /** The characters `\b` looks at on either side: `[A-Za-z0-9_]`. */
  predicate IsWordChar(c: char)
  {
    'a' <= c <= 'z' || 'A' <= c <= 'Z' || IsDigit(c) || c == '_'
  }

  /** Whether position `i` of the text holds a word character; positions
      outside the text do not. */
  predicate WordAt(text: string, i: int)
  {
    0 <= i < |text| && IsWordChar(text[i])
  }

  /** The end of the longest run of `cls` characters that starts at `p`. */
  function Span(cls: Class, text: string, p: nat): (q: nat)
    requires p <= |text|
    ensures p <= q <= |text|
    ensures forall i :: p <= i < q ==> In(cls, text[i])
    ensures q == |text| || !In(cls, text[q])
    decreases |text| - p
  {
    if p < |text| && In(cls, text[p]) then Span(cls, text, p + 1) else p
  }

  /** The text from `p` on spells the lower-case word `w`, ignoring the case
      of ASCII letters (the `i` flag). */
  predicate Spells(text: string, p: nat, w: string)
    requires p + |w| <= |text|
    decreases |w|
  {
    |w| == 0 || (Lower(text[p]) == w[0] && Spells(text, p + 1, w[1..]))
  }

  /** One element of a pattern: a literal word, `\b`, a class under `*` or
      `+`, `%`. */
  datatype Token = Word(w: string) | Boundary | Star(cls: Class) | Plus(cls: Class) | Percent

  /** `before (\d+) after`. */
  datatype Pattern = Pattern(before: seq<Token>, after: seq<Token>)

  /** Where one token, tried at `p`, leaves the match, if it matches there. */
  function Step(tok: Token, text: string, p: nat): (r: Option<nat>)
    requires p <= |text|
    ensures r.Some? ==> p <= r.value <= |text|
    ensures r.Some? && tok.Percent? ==> r.value == p + 1 && text[p] == '%'
  {
    match tok
    case Word(w) => if p + |w| <= |text| && Spells(text, p, w) then Some(p + |w|) else None
    case Boundary => if WordAt(text, p - 1) != WordAt(text, p) then Some(p) else None
    case Star(cls) => Some(Span(cls, text, p))
    case Plus(cls) => if Span(cls, text, p) == p then None else Some(Span(cls, text, p))
    case Percent => if p < |text| && text[p] == '%' then Some(p + 1) else None
  }

  /** Where a sequence of tokens, tried at `p`, ends, if it matches there. */
  function MatchTokens(toks: seq<Token>, text: string, p: nat): (r: Option<nat>)
    requires p <= |text|
    ensures r.Some? ==> p <= r.value <= |text|
    decreases |toks|
  {
    if |toks| == 0 then Some(p)
    else
      match Step(toks[0], text, p)
      case None => None
      case Some(q) => MatchTokens(toks[1..], text, q)
  }

  /** The captured digits of a match of the pattern that starts at `p`. */
  function MatchAt(pat: Pattern, text: string, p: nat): (r: Option<string>)
    requires p <= |text|
    ensures r.Some? ==> |r.value| > 0 && AllDigits(r.value)
  {
    match MatchTokens(pat.before, text, p)
    case None => None
    case Some(q) =>
      var e := Span(Digits, text, q);
      if e == q || MatchTokens(pat.after, text, e).None? then None else Some(text[q..e])
  }

  /** Where the leftmost match of the pattern at or after `p` starts. */
  function Leftmost(pat: Pattern, text: string, p: nat): (r: Option<nat>)
    requires p <= |text|
    ensures r.Some? ==> p <= r.value <= |text| && MatchAt(pat, text, r.value).Some?
    ensures r.Some? ==> forall q :: p <= q < r.value ==> MatchAt(pat, text, q).None?
    ensures r.None? ==> forall q :: p <= q <= |text| ==> MatchAt(pat, text, q).None?
    decreases |text| - p
  {
    if MatchAt(pat, text, p).Some? then Some(p)
    else if p == |text| then None
    else Leftmost(pat, text, p + 1)
  }

  /** `text.match(pattern)[1]`: the capture of the leftmost match, and only
      of that one. */
  function FirstMatch(pat: Pattern, text: string): (r: Option<string>)
  {
    match Leftmost(pat, text, 0)
    case None => None
    case Some(q) => MatchAt(pat, text, q)
  }

  /** `parseInt(match[1])` for the whole text. */
  function Reading(pat: Pattern, text: string): (r: Option<nat>)
  {
    match FirstMatch(pat, text)
    case None => None
    case Some(digits) => Some(DigitsValue(digits))
  }

  /** The pattern's reading passes the range check. */
  predicate Accepted(pat: Pattern, text: string)
  {
    Reading(pat, text).Some? && Reading(pat, text).value <= 100
  }

  /** The loop over the patterns: the first accepted reading is returned. */
  function ExtractFrom(pats: seq<Pattern>, text: string): (r: Option<nat>)
    ensures r.Some? ==> r.value <= 100
    ensures r.Some? <==> exists i :: 0 <= i < |pats| && Accepted(pats[i], text)
    ensures r.Some? ==> exists i :: 0 <= i < |pats| && Reading(pats[i], text) == r
                                    && forall j :: 0 <= j < i ==> !Accepted(pats[j], text)
    decreases |pats|
  {
    if |pats| == 0 then None
    else if Accepted(pats[0], text) then Reading(pats[0], text)
    else
      var r := ExtractFrom(pats[1..], text);
      assert forall i :: 0 < i < |pats| ==> pats[i] == pats[1..][i - 1];
      if r.Some? then
        ghost var i :| 0 <= i < |pats[1..]| && Reading(pats[1..][i], text) == r
                       && forall j :: 0 <= j < i ==> !Accepted(pats[1..][j], text);
        assert Reading(pats[i + 1], text) == r && forall j :: 0 <= j < i + 1 ==> !Accepted(pats[j], text);
        r
      else r
  }

  /** `similarity\s*score[:\s-]*(\d+)\s*%` */
  const SimilarityScore := Pattern([Word("similarity"), Star(Space), Word("score"), Star(Separator)], [Star(Space), Percent])
  /** `similarity[:\s-]*(\d+)\s*%` */
  const SimilarityColon := Pattern([Word("similarity"), Star(Separator)], [Star(Space), Percent])
  /** `(\d+)\s*%\s*similarity` */
  const PercentSimilarity := Pattern([], [Star(Space), Percent, Star(Space), Word("similarity")])
  /** `\bscore[:\s-]*(\d+)\s*%` */
  const ScoreColon := Pattern([Boundary, Word("score"), Star(Separator)], [Star(Space), Percent])
  /** `overall[:\s-]*(\d+)\s*%` */
  const OverallColon := Pattern([Word("overall"), Star(Separator)], [Star(Space), Percent])
  /** `match[:\s-]*(\d+)\s*%` */
  const MatchColon := Pattern([Word("match"), Star(Separator)], [Star(Space), Percent])
  /** `(\d+)\s*%`, the fallback, without the `i` flag (it has no letters). */
  const AnyPercent := Pattern([], [Star(Space), Percent])

  const Patterns := [SimilarityScore, SimilarityColon, PercentSimilarity, ScoreColon, OverallColon, MatchColon, AnyPercent]

  /** `extractSimilarityScore`. */
  function ExtractSimilarityScore(text: string): (r: Option<nat>)
    ensures r.Some? ==> r.value <= 100
  {
    ExtractFrom(Patterns, text)
  }

  /** The first pattern, in the listed order, whose reading passes the
      range check decides the score, whatever the later ones read. */
  lemma FirstAcceptedDecides(pats: seq<Pattern>, text: string, i: nat)
    requires i < |pats| && Accepted(pats[i], text)
    requires forall j :: 0 <= j < i ==> !Accepted(pats[j], text)
    ensures ExtractFrom(pats, text) == Reading(pats[i], text)
  {
  }

  /** A reading above 100 does not end the search: the result is that of
      the remaining patterns, even when the same pattern matches again
      further on with a smaller number. */
  lemma OverHundredFallsThrough(pats: seq<Pattern>, text: string)
    requires |pats| > 0 && Reading(pats[0], text).Some? && Reading(pats[0], text).value > 100
    ensures ExtractFrom(pats, text) == ExtractFrom(pats[1..], text)
  {
  }

  /** Without a `%` in the text, a token sequence holding `%` matches
      nowhere. */
  lemma {:induction false} PercentNeeded(toks: seq<Token>, text: string, p: nat)
    requires p <= |text| && Percent in toks
    requires forall i :: 0 <= i < |text| ==> text[i] != '%'
    ensures MatchTokens(toks, text, p).None?
    decreases |toks|
  {
    if toks[0] != Percent {
      match Step(toks[0], text, p)
      case None =>
      case Some(q) =>
        assert Percent in toks[1..];
        PercentNeeded(toks[1..], text, q);
    }
  }

  lemma {:induction false} NoPercentUnaccepted(pats: seq<Pattern>, text: string)
    requires forall k :: 0 <= k < |pats| ==> Percent in pats[k].after
    requires forall i :: 0 <= i < |text| ==> text[i] != '%'
    ensures ExtractFrom(pats, text).None?
    decreases |pats|
  {
    if |pats| > 0 {
      forall q | 0 <= q <= |text|
        ensures MatchAt(pats[0], text, q).None?
      {
        match MatchTokens(pats[0].before, text, q)
        case None =>
        case Some(b) => PercentNeeded(pats[0].after, text, Span(Digits, text, b));
      }
      assert !Accepted(pats[0], text);
      NoPercentUnaccepted(pats[1..], text);
    }
  }

  /** Every pattern needs a `%`, so a text without one has no score. */
  lemma NoPercentNoScore(text: string)
    requires forall i :: 0 <= i < |text| ==> text[i] != '%'
    ensures ExtractSimilarityScore(text).None?
  {
    NoPercentUnaccepted(Patterns, text);
  }

  /** A word of the token sequence begins with a letter. */
  predicate HasWord(toks: seq<Token>)
  {
    exists k :: 0 <= k < |toks| && toks[k].Word? && |toks[k].w| > 0 && 'a' <= toks[k].w[0] <= 'z'
  }

  predicate NoLetters(text: string)
  {
    forall i :: 0 <= i < |text| ==> !('a' <= Lower(text[i]) <= 'z')
  }

  /** In a text without letters, a token sequence holding a word matches
      nowhere. */
  lemma {:induction false} WordNeeded(toks: seq<Token>, text: string, p: nat)
    requires p <= |text| && HasWord(toks) && NoLetters(text)
    ensures MatchTokens(toks, text, p).None?
    decreases |toks|
  {
    var k :| 0 <= k < |toks| && toks[k].Word? && |toks[k].w| > 0 && 'a' <= toks[k].w[0] <= 'z';
    if k > 0 {
      match Step(toks[0], text, p)
      case None =>
      case Some(q) =>
        assert toks[1..][k - 1] == toks[k];
        WordNeeded(toks[1..], text, q);
    }
  }

  /** In a text without letters only the fallback `(\d+)\s*%` can give a
      score: every other pattern holds a word. */
  lemma LetterFreeUsesFallback(text: string)
    requires NoLetters(text)
    ensures ExtractSimilarityScore(text) == (if Accepted(AnyPercent, text) then Reading(AnyPercent, text) else None)
  {
    var wordy := [SimilarityScore, SimilarityColon, PercentSimilarity, ScoreColon, OverallColon, MatchColon];
    forall k, q | 0 <= k < |wordy| && 0 <= q <= |text|
      ensures MatchAt(wordy[k], text, q).None?
    {
      if k == 2 {
        assert wordy[k].after[3] == Word("similarity");
        match MatchTokens(wordy[k].before, text, q)
        case None =>
        case Some(b) => WordNeeded(wordy[k].after, text, Span(Digits, text, b));
      } else {
        assert wordy[k].before[if k == 3 then 1 else 0].Word?;
        WordNeeded(wordy[k].before, text, q);
      }
    }
    assert Patterns == wordy + [AnyPercent];
    assert forall k :: 0 <= k < |wordy| ==> !Accepted(Patterns[k], text);
    SkipUnaccepted(Patterns, text, |wordy|);
    assert Patterns[|wordy|..] == [AnyPercent];
  }

  /** Patterns whose readings are refused are passed over. */
  lemma {:induction false} SkipUnaccepted(pats: seq<Pattern>, text: string, k: nat)
    requires k <= |pats|
    requires forall j :: 0 <= j < k ==> !Accepted(pats[j], text)
    ensures ExtractFrom(pats, text) == ExtractFrom(pats[k..], text)
    decreases k
  {
    if k > 0 {
      assert forall j :: 0 <= j < k - 1 ==> pats[1..][j] == pats[j + 1];
      SkipUnaccepted(pats[1..], text, k - 1);
      assert pats[1..][k - 1..] == pats[k..];
    }
  }

  /** `Span` is characterised by its contract: the run ends at the first
      character outside the class. */
  lemma {:induction false} SpanEnds(cls: Class, text: string, p: nat, q: nat)
    requires p <= q <= |text|
    requires forall i :: p <= i < q ==> In(cls, text[i])
    requires q == |text| || !In(cls, text[q])
    ensures Span(cls, text, p) == q
    decreases q - p
  {
    if p < q {
      SpanEnds(cls, text, p + 1, q);
    }
  }

  /** Only the first match of a pattern is read: in "150% 80%" the fallback
      would find 80 at position 5, but it reads 150 at position 0, which the
      range check refuses, and no other pattern matches. */
  lemma OnlyFirstMatchRead()
    ensures MatchAt(AnyPercent, "150% 80%", 5) == Some("80")
    ensures ExtractSimilarityScore("150% 80%").None?
  {
    var text := "150% 80%";
    assert text[0] == '1' && text[1] == '5' && text[2] == '0' && text[3] == '%' && text[4] == ' ';
    assert text[5] == '8' && text[6] == '0' && text[7] == '%';
    SpanEnds(Digits, text, 0, 3);
    SpanEnds(Space, text, 3, 3);
    SpanEnds(Digits, text, 5, 7);
    SpanEnds(Space, text, 7, 7);
    assert text[0..3] == "150" && text[5..7] == "80";
    assert MatchAt(AnyPercent, text, 0) == Some("150");
    assert "150"[..2] == "15" && "15"[..1] == "1" && "1"[..0] == "";
    assert DigitsValue("150") == 150;
    LetterFreeUsesFallback(text);
  }

  // The backtracking argument.

  /** Whether two classes share a character. */
  predicate Overlap(a: Class, b: Class)
  {
    a == b || (a != Digits && b != Digits)
  }

  /** Whether a match of `toks` may begin with a character of `cls`, or
      depend on where the run before it stops: an over-approximation, exact
      enough for the seven patterns. A `\b` counts as depending, since giving
      back part of a run can move a word boundary. Words are stored in lower
      case and no class holds a letter. */
  predicate MayStartWith(toks: seq<Token>, cls: Class)
    decreases |toks|
  {
    |toks| > 0 &&
    match toks[0]
    case Word(w) => if |w| == 0 then MayStartWith(toks[1..], cls) else In(cls, w[0])
    case Boundary => true
    case Star(c) => Overlap(c, cls) || MayStartWith(toks[1..], cls)
    case Plus(c) => Overlap(c, cls)
    case Percent => In(cls, '%')
  }

  /** Every class under `*` or `+` in the token sequence is followed by
      something that can neither begin with a character of that class nor
      depend on where the run stops, so giving back part of the run can never
      let the rest match. */
  predicate GreedyIsExact(toks: seq<Token>)
    decreases |toks|
  {
    |toks| == 0 ||
      (((toks[0].Star? || toks[0].Plus?) ==> !MayStartWith(toks[1..], toks[0].cls)) && GreedyIsExact(toks[1..]))
  }

  /** The whole expression, with its group `(\d+)`, needs no backtracking. */
  predicate NoBacktracking(pat: Pattern)
  {
    GreedyIsExact(pat.before + [Plus(Digits)] + pat.after)
  }

  /** Adding one token in front keeps the sequence free of backtracking when
      that token, under a star or a plus, cannot interfere with the rest. */
  lemma GreedyStep(t: Token, rest: seq<Token>)
    requires GreedyIsExact(rest)
    requires t.Star? || t.Plus? ==> !MayStartWith(rest, t.cls)
    ensures GreedyIsExact([t] + rest)
  {
    assert ([t] + rest)[1..] == rest;
  }

  lemma SimilarityScoreNeedsNoBacktracking()
    ensures NoBacktracking(SimilarityScore)
  {
    GreedyStep(Percent, []);
    GreedyStep(Star(Space), [Percent]);
    GreedyStep(Plus(Digits), [Star(Space), Percent]);
    GreedyStep(Star(Separator), [Plus(Digits), Star(Space), Percent]);
    GreedyStep(Word("score"), [Star(Separator), Plus(Digits), Star(Space), Percent]);
    GreedyStep(Star(Space), [Word("score"), Star(Separator), Plus(Digits), Star(Space), Percent]);
    GreedyStep(Word("similarity"), [Star(Space), Word("score"), Star(Separator), Plus(Digits), Star(Space), Percent]);
    assert SimilarityScore.before + [Plus(Digits)] + SimilarityScore.after == [Word("similarity"), Star(Space), Word("score"), Star(Separator), Plus(Digits), Star(Space), Percent];
  }

  lemma SimilarityColonNeedsNoBacktracking()
    ensures NoBacktracking(SimilarityColon)
  {
    GreedyStep(Percent, []);
    GreedyStep(Star(Space), [Percent]);
    GreedyStep(Plus(Digits), [Star(Space), Percent]);
    GreedyStep(Star(Separator), [Plus(Digits), Star(Space), Percent]);
    GreedyStep(Word("similarity"), [Star(Separator), Plus(Digits), Star(Space), Percent]);
    assert SimilarityColon.before + [Plus(Digits)] + SimilarityColon.after == [Word("similarity"), Star(Separator), Plus(Digits), Star(Space), Percent];
  }

  lemma PercentSimilarityNeedsNoBacktracking()
    ensures NoBacktracking(PercentSimilarity)
  {
    GreedyStep(Word("similarity"), []);
    GreedyStep(Star(Space), [Word("similarity")]);
    GreedyStep(Percent, [Star(Space), Word("similarity")]);
    GreedyStep(Star(Space), [Percent, Star(Space), Word("similarity")]);
    GreedyStep(Plus(Digits), [Star(Space), Percent, Star(Space), Word("similarity")]);
    assert PercentSimilarity.before + [Plus(Digits)] + PercentSimilarity.after == [Plus(Digits), Star(Space), Percent, Star(Space), Word("similarity")];
  }

  lemma ScoreColonNeedsNoBacktracking()
    ensures NoBacktracking(ScoreColon)
  {
    GreedyStep(Percent, []);
    GreedyStep(Star(Space), [Percent]);
    GreedyStep(Plus(Digits), [Star(Space), Percent]);
    GreedyStep(Star(Separator), [Plus(Digits), Star(Space), Percent]);
    GreedyStep(Word("score"), [Star(Separator), Plus(Digits), Star(Space), Percent]);
    GreedyStep(Boundary, [Word("score"), Star(Separator), Plus(Digits), Star(Space), Percent]);
    assert ScoreColon.before + [Plus(Digits)] + ScoreColon.after == [Boundary, Word("score"), Star(Separator), Plus(Digits), Star(Space), Percent];
  }

  lemma OverallColonNeedsNoBacktracking()
    ensures NoBacktracking(OverallColon)
  {
    GreedyStep(Percent, []);
    GreedyStep(Star(Space), [Percent]);
    GreedyStep(Plus(Digits), [Star(Space), Percent]);
    GreedyStep(Star(Separator), [Plus(Digits), Star(Space), Percent]);
    GreedyStep(Word("overall"), [Star(Separator), Plus(Digits), Star(Space), Percent]);
    assert OverallColon.before + [Plus(Digits)] + OverallColon.after == [Word("overall"), Star(Separator), Plus(Digits), Star(Space), Percent];
  }

  lemma MatchColonNeedsNoBacktracking()
    ensures NoBacktracking(MatchColon)
  {
    GreedyStep(Percent, []);
    GreedyStep(Star(Space), [Percent]);
    GreedyStep(Plus(Digits), [Star(Space), Percent]);
    GreedyStep(Star(Separator), [Plus(Digits), Star(Space), Percent]);
    GreedyStep(Word("match"), [Star(Separator), Plus(Digits), Star(Space), Percent]);
    assert MatchColon.before + [Plus(Digits)] + MatchColon.after == [Word("match"), Star(Separator), Plus(Digits), Star(Space), Percent];
  }

  lemma AnyPercentNeedsNoBacktracking()
    ensures NoBacktracking(AnyPercent)
  {
    GreedyStep(Percent, []);
    GreedyStep(Star(Space), [Percent]);
    GreedyStep(Plus(Digits), [Star(Space), Percent]);
    assert AnyPercent.before + [Plus(Digits)] + AnyPercent.after == [Plus(Digits), Star(Space), Percent];
  }

  /** All seven patterns need no backtracking. */
  lemma PatternsNeedNoBacktracking()
    ensures forall i :: 0 <= i < |Patterns| ==> NoBacktracking(Patterns[i])
  {
    SimilarityScoreNeedsNoBacktracking();
    SimilarityColonNeedsNoBacktracking();
    PercentSimilarityNeedsNoBacktracking();
    ScoreColonNeedsNoBacktracking();
    OverallColonNeedsNoBacktracking();
    MatchColonNeedsNoBacktracking();
    AnyPercentNeedsNoBacktracking();
  }
}
