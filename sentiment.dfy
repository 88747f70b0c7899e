/** The sentiment engine: text normalisation, three scorers (a polarity model,
    a valence model and a financial keyword counter), the fixed-weight
    consensus combiner and the batch wrapper.

    The libraries underneath the scorers are not modelled. Their outputs enter
    as the fields of `Libraries`, each applied to the text the engine hands
    it. Scores and confidences are exact reals. */
module Sentiment {
  import opened Wrappers
  import opened Text

  // ---------------------------------------------------------------------------
  // Results
  // ---------------------------------------------------------------------------

  datatype Label = Positive | Negative | Neutral

  /** Position of a label among the keys of the vote tally, which is the
      order in which `max` meets them. */
  function Rank(l: Label): nat {
    match l
    case Positive => 0
    case Negative => 1
    case Neutral => 2
  }

  /** The fields one scorer adds beside method, score, confidence and label. */
  datatype Details =
    | NoDetails
    | SubjectivityDetail(subjectivity: real)
    | Proportions(pos: real, neu: real, neg: real)
    | KeywordCounts(positiveKeywords: nat, negativeKeywords: nat, totalKeywords: nat)

  /** One scorer's result: a score that the combiner may find missing, a
      confidence and the scorer's own label (the `label` key, here `verdict`). */
  datatype MethodResult = MethodResult(
    methodName: string,
    score: Option<real>,
    confidence: real,
    verdict: Label,
    details: Details)

  /** What `analyze_sentiment` returns: either a plain method result (keys
      `score` and `label`), or the consensus of the three scorers (keys
      `sentiment_score` and `sentiment_label`, method `'combined'`, the three
      individual results kept verbatim). */
  datatype Analysis =
    | Plain(result: MethodResult)
    | Consensus(
        sentimentScore: real,
        confidence: real,
        sentimentLabel: Label,
        textblob: MethodResult,
        vader: MethodResult,
        financialKeywords: MethodResult)

  /** Score in [-1, 1] when present, confidence in [0, 1]. */
  predicate InRange(r: MethodResult) {
    (r.score.Some? ==> -1.0 <= r.score.value <= 1.0) && 0.0 <= r.confidence <= 1.0
  }

  // ---------------------------------------------------------------------------
  // Threshold labelling
  // ---------------------------------------------------------------------------

  /** Label rule of the polarity scorer: strict cut-offs at +-0.1. */
  function PolarityLabel(polarity: real): (l: Label)
    ensures l == Positive <==> polarity > 0.1
    ensures l == Negative <==> polarity < -0.1
  {
    if polarity > 0.1 then Positive
    else if polarity < -0.1 then Negative
    else Neutral
  }

  /** Label rule of the valence scorer: inclusive cut-offs at +-0.05. */
  function ValenceLabel(compound: real): (l: Label)
    ensures l == Positive <==> compound >= 0.05
    ensures l == Negative <==> compound <= -0.05
  {
    if compound >= 0.05 then Positive
    else if compound <= -0.05 then Negative
    else Neutral
  }

  /** Label rule of the keyword scorer: strict cut-offs at +-0.2. */
  function KeywordLabel(score: real): (l: Label)
    ensures l == Positive <==> score > 0.2
    ensures l == Negative <==> score < -0.2
  {
    if score > 0.2 then Positive
    else if score < -0.2 then Negative
    else Neutral
  }

  /** -1, 0 or 1 for negative, neutral and positive. */
  function Direction(l: Label): int {
    match l
    case Negative => -1
    case Neutral => 0
    case Positive => 1
  }

  /** Every threshold rule is monotone: a higher score never gets a lower
      label. The valence rule is the most eager of the three: whatever the
      polarity or keyword rule calls positive (negative) it does too. */
  lemma ThresholdRulesMonotone(a: real, b: real)
    requires a <= b
    ensures Direction(PolarityLabel(a)) <= Direction(PolarityLabel(b))
    ensures Direction(ValenceLabel(a)) <= Direction(ValenceLabel(b))
    ensures Direction(KeywordLabel(a)) <= Direction(KeywordLabel(b))
    ensures PolarityLabel(a) != Neutral ==> ValenceLabel(a) == PolarityLabel(a)
    ensures KeywordLabel(a) != Neutral ==> ValenceLabel(a) == KeywordLabel(a)
  {
  }

  // ---------------------------------------------------------------------------
  // Sentinel
  // ---------------------------------------------------------------------------

  /** The neutral result used for empty input, scorer failures, a keyword
      scan without hits and a combination without weight. */
  function EmptySentimentResult(methodName: string): (r: MethodResult)
    ensures r.methodName == methodName && r.details == NoDetails
    ensures InRange(r) && r.confidence == 0.0
    ensures r.score.Some? && r.verdict == PolarityLabel(r.score.value)
      && r.verdict == ValenceLabel(r.score.value) && r.verdict == KeywordLabel(r.score.value)
  {
    MethodResult(methodName, Some(0.0), 0.0, Neutral, NoDetails)
  }

  // ---------------------------------------------------------------------------
  // Text normalisation
  // ---------------------------------------------------------------------------

  /** Every whitespace character of `s` is the plain space. */
  predicate BlankSpacesOnly(s: string) {
    forall i :: 0 <= i < |s| ==> IsSpace(s[i]) ==> s[i] == ' '
  }

  /** `re.sub(r'\s+', ' ', s)`: every maximal run of whitespace becomes one
      space. */
  function CollapseWhitespace(s: string): (r: string)
    ensures BlankSpacesOnly(r)
    ensures forall i :: 0 <= i < |r| - 1 ==> !(IsSpace(r[i]) && IsSpace(r[i + 1]))
    ensures |r| <= |s|
    ensures r == [] <==> s == []
    ensures r != [] ==> (IsSpace(r[0]) <==> IsSpace(s[0]))
    decreases |s|
  {
    if s == [] then []
    else if IsSpace(s[0]) then
      var rest := TrimStart(s);
      [' '] + CollapseWhitespace(rest)
    else
      var rest := CollapseWhitespace(s[1..]);
      [s[0]] + rest
  }

  /** A character the punctuation filter keeps: `[\w\s.,!?;:-]`. */
  predicate Kept(c: char) {
    IsWordChar(c) || IsSpace(c) || c in ".,!?;:-"
  }

  /** `re.sub(r'[^\w\s.,!?;:-]', '', s)`. */
  function FilterCharacters(s: string): (r: string)
    ensures forall i :: 0 <= i < |r| ==> Kept(r[i])
    ensures BlankSpacesOnly(s) ==> BlankSpacesOnly(r)
    ensures (forall i :: 0 <= i < |s| ==> Kept(s[i])) ==> r == s
    ensures |r| <= |s|
  {
    if s == [] then []
    else
      var rest := FilterCharacters(s[1..]);
      if Kept(s[0]) then [s[0]] + rest else rest
  }

  /** `_preprocess_text`. `dropLinks` stands for the URL and e-mail
      substitutions; then whitespace is collapsed, unwanted characters are
      removed and the ends are trimmed. The filter runs after the collapse,
      so removing a character between two spaces leaves a double space. */
  function Preprocess(text: string, dropLinks: string -> string): (cleaned: string)
    ensures cleaned == [] || (!IsSpace(cleaned[0]) && !IsSpace(cleaned[|cleaned| - 1]))
    ensures forall i :: 0 <= i < |cleaned| ==> Kept(cleaned[i])
    ensures BlankSpacesOnly(cleaned)
  {
    var collapsed := CollapseWhitespace(dropLinks(text));
    var filtered := FilterCharacters(collapsed);
    StripKeepsCharacters(filtered);
    Strip(filtered)
  }

  /** Trimming keeps a piece of the text, so what holds of every character
      of the text holds of every character of the trimmed text. */
  lemma StripKeepsCharacters(s: string)
    requires forall i :: 0 <= i < |s| ==> Kept(s[i])
    requires BlankSpacesOnly(s)
    ensures forall i :: 0 <= i < |Strip(s)| ==> Kept(Strip(s)[i])
    ensures BlankSpacesOnly(Strip(s))
  {
    StripCharacters(s);
  }

  /** A run without whitespace passes the collapse unchanged. */
  lemma {:induction false} CollapseRun(w: string, rest: string)
    requires forall i :: 0 <= i < |w| ==> !IsSpace(w[i])
    ensures CollapseWhitespace(w + rest) == w + CollapseWhitespace(rest)
  {
    if w != [] {
      assert (w + rest)[1..] == w[1..] + rest;
      CollapseRun(w[1..], rest);
      assert w + CollapseWhitespace(rest) == [w[0]] + (w[1..] + CollapseWhitespace(rest));
    } else {
      assert w + rest == rest;
    }
  }

  /** Leading whitespace is at least one character when the text starts
      with whitespace. */
  lemma TrimStartShortens(s: string)
    requires s != [] && IsSpace(s[0])
    ensures |TrimStart(s)| < |s|
  {
  }

  /** The collapsed text ends with whitespace exactly when the text does. */
  lemma {:induction false} CollapseEnds(s: string)
    requires s != []
    ensures var r := CollapseWhitespace(s);
      r != [] && (IsSpace(r[|r| - 1]) <==> IsSpace(s[|s| - 1]))
    decreases |s|, 1
  {
    if IsSpace(s[0]) {
      CollapseEndsAfterSpace(s);
    } else if |s| > 1 {
      CollapseEndsAfterChar(s);
    }
  }

  /** `CollapseEnds` for a text that starts with whitespace. */
  lemma {:induction false} CollapseEndsAfterSpace(s: string)
    requires s != [] && IsSpace(s[0])
    ensures var r := CollapseWhitespace(s);
      r != [] && (IsSpace(r[|r| - 1]) <==> IsSpace(s[|s| - 1]))
    decreases |s|, 0
  {
    var t := TrimStart(s);
    TrimStartShortens(s);
    assert CollapseWhitespace(s) == [' '] + CollapseWhitespace(t);
    if t != [] {
      CollapseEnds(t);
      assert t[|t| - 1] == s[|s| - 1];
    }
  }

  /** `CollapseEnds` for a text of two or more characters that starts with
      non-whitespace. */
  lemma {:induction false} CollapseEndsAfterChar(s: string)
    requires |s| > 1 && !IsSpace(s[0])
    ensures var r := CollapseWhitespace(s);
      r != [] && (IsSpace(r[|r| - 1]) <==> IsSpace(s[|s| - 1]))
    decreases |s|, 0
  {
    assert CollapseWhitespace(s) == [s[0]] + CollapseWhitespace(s[1..]);
    CollapseEnds(s[1..]);
  }

  /** Collapsing whitespace keeps the words of the text. */
  lemma {:induction false} CollapseKeepsWords(s: string)
    ensures Words(CollapseWhitespace(s)) == Words(s)
    decreases |s|, 1
  {
    if s != [] {
      if IsSpace(s[0]) {
        CollapseKeepsWordsAfterSpace(s);
      } else {
        CollapseKeepsWordsAfterRun(s);
      }
    }
  }

  /** `CollapseKeepsWords` for a text that starts with whitespace. */
  lemma {:induction false} CollapseKeepsWordsAfterSpace(s: string)
    requires s != [] && IsSpace(s[0])
    ensures Words(CollapseWhitespace(s)) == Words(s)
    decreases |s|, 0
  {
    var t := TrimStart(s);
    TrimStartShortens(s);
    assert CollapseWhitespace(s) == [' '] + CollapseWhitespace(t);
    CollapseKeepsWords(t);
    SpacesThenText([' '], CollapseWhitespace(t));
    WordsAfterLeadingSpaces(s);
  }

  /** `CollapseKeepsWords` for a text that starts with a run of
      non-whitespace. */
  lemma {:induction false} CollapseKeepsWordsAfterRun(s: string)
    requires s != [] && !IsSpace(s[0])
    ensures Words(CollapseWhitespace(s)) == Words(s)
    decreases |s|, 0
  {
    var w := WordPrefix(s);
    var rest := s[|w|..];
    assert s == w + rest;
    CollapseRun(w, rest);
    CollapseKeepsWords(rest);
    WordsAppend(w, CollapseWhitespace(rest));
    WordsAppend(w, rest);
  }

  /** A text that starts with whitespace still does after the filter. */
  lemma FilterKeepsLeadingSpace(s: string)
    requires s != [] && IsSpace(s[0])
    ensures FilterCharacters(s) != [] && FilterCharacters(s)[0] == s[0]
  {
  }

  /** Whitespace passes the filter unchanged. */
  lemma FilterKeepsSpaces(s: string)
    requires forall i :: 0 <= i < |s| ==> IsSpace(s[i])
    ensures FilterCharacters(s) == s
  {
    assert forall i :: 0 <= i < |s| ==> Kept(s[i]);
  }

  /** Filtering the collapsed text gives the words that filtering the
      text itself gives: collapsing only changes whitespace, which the
      filter keeps. */
  lemma {:induction false} FilterCollapseWords(s: string)
    ensures Words(FilterCharacters(CollapseWhitespace(s))) == Words(FilterCharacters(s))
    decreases |s|, 1
  {
    if s != [] {
      if IsSpace(s[0]) {
        FilterCollapseWordsAfterSpace(s);
      } else {
        FilterCollapseWordsAfterRun(s);
      }
    }
  }

  /** `FilterCollapseWords` for a text that starts with whitespace. */
  lemma {:induction false} FilterCollapseWordsAfterSpace(s: string)
    requires s != [] && IsSpace(s[0])
    ensures Words(FilterCharacters(CollapseWhitespace(s))) == Words(FilterCharacters(s))
    decreases |s|, 0
  {
    var t := TrimStart(s);
    TrimStartShortens(s);
    FilterCollapseWords(t);
    FilteredCollapseSkipsSpace(s);
    FilteredSkipsLeadingSpaces(s);
  }

  /** After the collapse and the filter, a leading run of whitespace is
      one space, which holds no words. */
  lemma FilteredCollapseSkipsSpace(s: string)
    requires s != [] && IsSpace(s[0])
    ensures Words(FilterCharacters(CollapseWhitespace(s)))
      == Words(FilterCharacters(CollapseWhitespace(TrimStart(s))))
  {
    var t := TrimStart(s);
    assert CollapseWhitespace(s) == [' '] + CollapseWhitespace(t);
    FilterAppend([' '], CollapseWhitespace(t));
    FilterKeepsSpaces([' ']);
    SpacesThenText([' '], FilterCharacters(CollapseWhitespace(t)));
  }

  /** The filter keeps leading whitespace, which holds no words. */
  lemma FilteredSkipsLeadingSpaces(s: string)
    ensures Words(FilterCharacters(s)) == Words(FilterCharacters(TrimStart(s)))
  {
    var n := LeadingSpaces(s);
    var t := TrimStart(s);
    assert s == s[..n] + t;
    FilterAppend(s[..n], t);
    FilterKeepsSpaces(s[..n]);
    SpacesThenText(s[..n], FilterCharacters(t));
  }

  /** `FilterCollapseWords` for a text that starts with a run of
      non-whitespace. */
  lemma {:induction false} FilterCollapseWordsAfterRun(s: string)
    requires s != [] && !IsSpace(s[0])
    ensures Words(FilterCharacters(CollapseWhitespace(s))) == Words(FilterCharacters(s))
    decreases |s|, 0
  {
    var w := WordPrefix(s);
    var rest := s[|w|..];
    assert s == w + rest;
    CollapseRun(w, rest);
    FilterCollapseWords(rest);
    FilterAppend(w, CollapseWhitespace(rest));
    FilterAppend(w, rest);
    if rest != [] {
      FilterKeepsLeadingSpace(CollapseWhitespace(rest));
      FilterKeepsLeadingSpace(rest);
    }
    WordsAppend(FilterCharacters(w), FilterCharacters(CollapseWhitespace(rest)));
    WordsAppend(FilterCharacters(w), FilterCharacters(rest));
  }

  /** The cleaned text has the words of the link-free text after the
      character filter: collapsing and trimming only change whitespace. */
  lemma PreprocessKeepsWords(text: string, dropLinks: string -> string)
    ensures Words(Preprocess(text, dropLinks)) == Words(FilterCharacters(dropLinks(text)))
  {
    var x := dropLinks(text);
    WordsOfStrip(FilterCharacters(CollapseWhitespace(x)));
    FilterCollapseWords(x);
  }

  /** Text that is already collapsed (only plain spaces, never two
      whitespace characters in a row) is left as it is. */
  lemma {:induction false} CollapseFixesCollapsed(s: string)
    requires BlankSpacesOnly(s)
    requires forall i :: 0 <= i < |s| - 1 ==> !(IsSpace(s[i]) && IsSpace(s[i + 1]))
    ensures CollapseWhitespace(s) == s
    decreases |s|
  {
    if s != [] {
      CollapseFixesCollapsed(s[1..]);
      if IsSpace(s[0]) {
        assert s[1..] == [] || !IsSpace(s[1..][0]);
        assert TrimStart(s[1..]) == s[1..];
        assert s == [' '] + s[1..];
      } else {
        assert s == [s[0]] + s[1..];
      }
    }
  }

  /** Collapsing whitespace twice is the same as collapsing it once. */
  lemma CollapseIdempotent(s: string)
    ensures CollapseWhitespace(CollapseWhitespace(s)) == CollapseWhitespace(s)
  {
    CollapseFixesCollapsed(CollapseWhitespace(s));
  }

  /** The filter works character by character, so it distributes over
      concatenation. */
  lemma {:induction false} FilterAppend(a: string, b: string)
    ensures FilterCharacters(a + b) == FilterCharacters(a) + FilterCharacters(b)
  {
    if a != [] {
      assert (a + b)[1..] == a[1..] + b;
      FilterAppend(a[1..], b);
    } else {
      assert a + b == b;
    }
  }

  /** A single character survives the filter exactly when it is kept. */
  lemma FilterOne(c: char)
    ensures FilterCharacters([c]) == if Kept(c) then [c] else []
  {
    assert [c][1..] == [];
  }

  /** Removing a character that stands between two spaces brings the two
      spaces together. */
  lemma FilterJoinsSpaces(x: char, junk: char, y: char)
    requires Kept(x) && Kept(y) && !Kept(junk)
    ensures FilterCharacters([x, ' ', junk, ' ', y]) == [x, ' ', ' ', y]
  {
    var left, right := [x, ' '], [' ', y];
    assert FilterCharacters([junk] + right) == right by {
      FilterAppend([junk], right);
      FilterKeepsKept(right);
      assert FilterCharacters([junk]) == [] by { assert [junk][1..] == []; }
    }
    assert FilterCharacters(left + ([junk] + right)) == left + right by {
      FilterAppend(left, [junk] + right);
      FilterKeepsKept(left);
    }
    assert [x, ' ', junk, ' ', y] == left + ([junk] + right);
  }

  /** Text made of kept characters passes the filter unchanged. */
  lemma FilterKeepsKept(s: string)
    requires |s| == 2 && Kept(s[0]) && Kept(s[1])
    ensures FilterCharacters(s) == s
  {
    assert forall i :: 0 <= i < |s| ==> Kept(s[i]);
  }

  /** The filter runs after the collapse, so a removed character between two
      spaces leaves a double space in the cleaned text (here for a text
      without links, which the link removal leaves alone). */
  lemma DoubleSpaceCanReappear(x: char, junk: char, y: char, dropLinks: string -> string)
    requires IsWordChar(x) && IsWordChar(y) && !Kept(junk)
    requires dropLinks([x, ' ', junk, ' ', y]) == [x, ' ', junk, ' ', y]
    ensures Preprocess([x, ' ', junk, ' ', y], dropLinks) == [x, ' ', ' ', y]
  {
    CollapseLeavesSpacedText(x, junk, y);
    FilterJoinsSpaces(x, junk, y);
    StripLeavesSpacedText(x, y);
  }

  /** Single spaces between non-whitespace characters are already
      collapsed. */
  lemma CollapseLeavesSpacedText(x: char, junk: char, y: char)
    requires IsWordChar(x) && IsWordChar(y) && !Kept(junk)
    ensures CollapseWhitespace([x, ' ', junk, ' ', y]) == [x, ' ', junk, ' ', y]
  {
    CollapseFixesCollapsed([x, ' ', junk, ' ', y]);
  }

  /** Text that starts and ends with a word character is not trimmed. */
  lemma StripLeavesSpacedText(x: char, y: char)
    requires IsWordChar(x) && IsWordChar(y)
    ensures Strip([x, ' ', ' ', y]) == [x, ' ', ' ', y]
  {
    StripTrimmed([x, ' ', ' ', y]);
  }

  // ---------------------------------------------------------------------------
  // Polarity scorer
  // ---------------------------------------------------------------------------

  /** What the polarity model reports for a text. */
  datatype PolarityReading = PolarityReading(polarity: real, subjectivity: real)

  /** Polarity in [-1, 1], subjectivity in [0, 1]. */
  predicate PolarityInRange(p: PolarityReading) {
    -1.0 <= p.polarity <= 1.0 && 0.0 <= p.subjectivity <= 1.0
  }

  /** `_analyze_with_textblob`; `None` is a model that raised, which is
      absorbed into the sentinel tagged `'textblob'`. */
  function AnalyzeWithTextBlob(reading: Option<PolarityReading>): (r: MethodResult)
    ensures r.methodName == "textblob" && r.score.Some?
    ensures reading.None? ==> r == EmptySentimentResult("textblob")
    ensures reading.Some? ==>
      && r.score.value == reading.value.polarity
      && r.verdict == PolarityLabel(reading.value.polarity)
      && r.confidence == 1.0 - reading.value.subjectivity
      && r.details == SubjectivityDetail(reading.value.subjectivity)
    ensures reading.Some? && PolarityInRange(reading.value) ==> InRange(r)
  {
    match reading
    case None => EmptySentimentResult("textblob")
    case Some(p) =>
      MethodResult("textblob", Some(p.polarity), 1.0 - p.subjectivity,
        PolarityLabel(p.polarity), SubjectivityDetail(p.subjectivity))
  }

  // ---------------------------------------------------------------------------
  // Valence scorer
  // ---------------------------------------------------------------------------

  /** What the valence model reports: a compound score and the three
      proportions. */
  datatype ValenceReading = ValenceReading(compound: real, pos: real, neu: real, neg: real)

  /** Compound score in [-1, 1], proportions in [0, 1]. */
  predicate ValenceInRange(v: ValenceReading) {
    -1.0 <= v.compound <= 1.0
    && 0.0 <= v.pos <= 1.0 && 0.0 <= v.neu <= 1.0 && 0.0 <= v.neg <= 1.0
  }

  /** `max(a, b, c)`: the strongest of three values, which is one of them. */
  function Max3(a: real, b: real, c: real): (m: real)
    ensures a <= m && b <= m && c <= m
    ensures m == a || m == b || m == c
  {
    if a >= b && a >= c then a else if b >= c then b else c
  }

  /** `_analyze_with_vader`; `None` is a model that raised, absorbed into
      the sentinel tagged `'vader'`. */
  function AnalyzeWithVader(reading: Option<ValenceReading>): (r: MethodResult)
    ensures r.methodName == "vader" && r.score.Some?
    ensures reading.None? ==> r == EmptySentimentResult("vader")
    ensures reading.Some? ==>
      var v := reading.value;
      && r.score.value == v.compound
      && r.verdict == ValenceLabel(v.compound)
      && r.confidence == Max3(v.pos, v.neu, v.neg)
      && r.details == Proportions(v.pos, v.neu, v.neg)
    ensures reading.Some? && ValenceInRange(reading.value) ==> InRange(r)
  {
    match reading
    case None => EmptySentimentResult("vader")
    case Some(v) =>
      MethodResult("vader", Some(v.compound), Max3(v.pos, v.neu, v.neg),
        ValenceLabel(v.compound), Proportions(v.pos, v.neu, v.neg))
  }

  // ---------------------------------------------------------------------------
  // Financial keyword scorer
  // ---------------------------------------------------------------------------

  /** The positive keyword list. The scorer only ever asks whether a token
      is on it, so it is held as the set of its words. */
  const PositiveKeywords: set<string> := {
    "profit", "growth", "increase", "gain", "rise", "bull", "bullish",
    "up", "surge", "rally", "outperform", "beat", "exceed", "strong",
    "robust", "solid", "record", "milestone", "breakthrough", "success"}

  /** The negative keyword list, likewise as a set. */
  const NegativeKeywords: set<string> := {
    "loss", "decline", "fall", "drop", "bear", "bearish", "down",
    "crash", "plunge", "underperform", "miss", "weak", "poor",
    "disappointing", "struggle", "concern", "risk", "uncertainty"}

  /** No word is on both lists, so the order in which the scorer consults
      them never decides whether a token is counted. */
  lemma KeywordListsDisjoint()
    ensures PositiveKeywords !! NegativeKeywords
  {
  }

  /** A token the keyword scan skips: a stop-word or not purely alphabetic. */
  predicate Ignored(token: string, stopWords: set<string>) {
    token in stopWords || !IsAlpha(token)
  }

  /** The token list after the stop-word and `isalpha` filter. */
  function RelevantTokens(tokens: seq<string>, stopWords: set<string>): (r: seq<string>)
    ensures |r| <= |tokens|
    ensures forall k :: 0 <= k < |r| ==> !Ignored(r[k], stopWords)
  {
    if tokens == [] then []
    else
      var init := RelevantTokens(tokens[..|tokens| - 1], stopWords);
      var last := tokens[|tokens| - 1];
      if Ignored(last, stopWords) then init else init + [last]
  }

  /** How many tokens hit the positive list. */
  function PositiveHits(tokens: seq<string>): nat {
    if tokens == [] then 0
    else PositiveHits(tokens[..|tokens| - 1]) + (if tokens[|tokens| - 1] in PositiveKeywords then 1 else 0)
  }

  /** How many tokens miss the positive list and hit the negative one (the
      positive list is consulted first). */
  function NegativeHits(tokens: seq<string>): nat {
    if tokens == [] then 0
    else
      var t := tokens[|tokens| - 1];
      NegativeHits(tokens[..|tokens| - 1]) + (if t !in PositiveKeywords && t in NegativeKeywords then 1 else 0)
  }

  /** `min(a, b)`. */
  function Min(a: real, b: real): (m: real)
    ensures m <= a && m <= b && (m == a || m == b)
  {
    if a <= b then a else b
  }

  /** A sum that lies between `lo` and `hi` times a positive weight gives a
      mean between `lo` and `hi`. */
  lemma MeanWithin(sum: real, weight: real, lo: real, hi: real)
    requires weight > 0.0 && lo * weight <= sum <= hi * weight
    ensures lo <= sum / weight <= hi
  {
    assert sum / weight - hi == (sum - hi * weight) / weight;
    assert sum / weight - lo == (sum - lo * weight) / weight;
  }

  /** The keyword score: the balance of positive over negative hits as a
      share of all hits. */
  function HitRatio(positive: nat, negative: nat): (ratio: real)
    requires positive + negative > 0
    ensures -1.0 <= ratio <= 1.0
    ensures ratio * (positive + negative) as real == (positive - negative) as real
  {
    var ratio := (positive - negative) as real / (positive + negative) as real;
    MeanWithin((positive - negative) as real, (positive + negative) as real, -1.0, 1.0);
    ratio
  }

  /** The keyword result for given hit counts. */
  function KeywordResult(positive: nat, negative: nat): (r: MethodResult)
    ensures r.methodName == "financial_keywords" && r.score.Some? && InRange(r)
    ensures positive + negative == 0 ==> r == EmptySentimentResult("financial_keywords")
    ensures positive + negative > 0 ==>
      && r.score.value == HitRatio(positive, negative)
      && r.verdict == KeywordLabel(r.score.value)
      && r.confidence == Min((positive + negative) as real / 10.0, 1.0) && r.confidence > 0.0
      && r.details == KeywordCounts(positive, negative, positive + negative)
  {
    var total := positive + negative;
    if total == 0 then EmptySentimentResult("financial_keywords")
    else
      var score := HitRatio(positive, negative);
      MethodResult("financial_keywords", Some(score), Min(total as real / 10.0, 1.0),
        KeywordLabel(score), KeywordCounts(positive, negative, total))
  }

  /** The result of `_analyze_financial_keywords` for the tokenizer's output
      on the lower-cased text. */
  function FinancialKeywordResult(tokens: seq<string>, stopWords: set<string>): MethodResult {
    var relevant := RelevantTokens(tokens, stopWords);
    KeywordResult(PositiveHits(relevant), NegativeHits(relevant))
  }

  /** `_analyze_financial_keywords`: filter the tokens, then count hits in
      one pass, each token raising at most one counter. */
  method AnalyzeFinancialKeywords(tokens: seq<string>, stopWords: set<string>) returns (r: MethodResult)
    ensures r == FinancialKeywordResult(tokens, stopWords)
  {
    var relevant := RelevantTokens(tokens, stopWords);
    var positiveCount, negativeCount := 0, 0;
    for i := 0 to |relevant|
      invariant positiveCount == PositiveHits(relevant[..i])
      invariant negativeCount == NegativeHits(relevant[..i])
    {
      assert relevant[..i + 1][..i] == relevant[..i];
      var token := relevant[i];
      if token in PositiveKeywords {
        positiveCount := positiveCount + 1;
      } else if token in NegativeKeywords {
        negativeCount := negativeCount + 1;
      }
    }
    assert relevant[..|relevant|] == relevant;
    r := KeywordResult(positiveCount, negativeCount);
  }

  /** Each token is counted at most once, so hits never exceed tokens. */
  lemma {:induction false} HitsBounded(tokens: seq<string>)
    ensures PositiveHits(tokens) + NegativeHits(tokens) <= |tokens|
  {
    if tokens != [] {
      HitsBounded(tokens[..|tokens| - 1]);
    }
  }

  /** The token filter distributes over concatenation. */
  lemma {:induction false} RelevantTokensAppend(a: seq<string>, b: seq<string>, stopWords: set<string>)
    ensures RelevantTokens(a + b, stopWords) == RelevantTokens(a, stopWords) + RelevantTokens(b, stopWords)
    decreases |b|
  {
    if b != [] {
      var b' := b[..|b| - 1];
      assert (a + b)[..|a + b| - 1] == a + b';
      RelevantTokensAppend(a, b', stopWords);
    } else {
      assert a + b == a;
    }
  }

  /** A stop-word or a non-alphabetic token, wherever it stands, changes
      nothing in the keyword result. */
  lemma IgnoredTokenNeverCounts(before: seq<string>, token: string, after: seq<string>, stopWords: set<string>)
    requires Ignored(token, stopWords)
    ensures FinancialKeywordResult(before + [token] + after, stopWords)
         == FinancialKeywordResult(before + after, stopWords)
  {
    RelevantTokensAppend(before + [token], after, stopWords);
    RelevantTokensAppend(before, [token], stopWords);
    RelevantTokensAppend(before, after, stopWords);
    assert RelevantTokens([token], stopWords) == [] by {
      assert [token][..0] == [];
    }
  }

  /** Keyword confidence grows by a tenth per hit and saturates at 1 from
      ten hits on. */
  lemma KeywordConfidence(positive: nat, negative: nat)
    requires positive + negative > 0
    ensures var r := KeywordResult(positive, negative);
      && (positive + negative >= 10 ==> r.confidence == 1.0)
      && (positive + negative < 10 ==> r.confidence == (positive + negative) as real / 10.0)
  {
    var total := (positive + negative) as real;
    if positive + negative >= 10 {
      assert total / 10.0 >= 1.0;
    } else {
      assert total / 10.0 < 1.0;
    }
  }

  /** With at least one hit, the keyword score is the hit ratio and lies in
      [-1, 1]; the label follows it; confidence grows by a tenth per hit and
      saturates at 1 from ten hits on; there are never more hits than
      tokens. */
  lemma KeywordScoreWithHits(tokens: seq<string>, stopWords: set<string>)
    requires PositiveHits(RelevantTokens(tokens, stopWords)) + NegativeHits(RelevantTokens(tokens, stopWords)) > 0
    ensures var r := FinancialKeywordResult(tokens, stopWords);
      var p := PositiveHits(RelevantTokens(tokens, stopWords));
      var n := NegativeHits(RelevantTokens(tokens, stopWords));
      && r.score == Some(HitRatio(p, n))
      && -1.0 <= r.score.value <= 1.0
      && (r.verdict == Positive <==> r.score.value > 0.2)
      && (r.verdict == Negative <==> r.score.value < -0.2)
      && 0.0 < r.confidence <= 1.0
      && (p + n >= 10 ==> r.confidence == 1.0)
      && (p + n < 10 ==> r.confidence == (p + n) as real / 10.0)
      && p + n <= |tokens|
  {
    var relevant := RelevantTokens(tokens, stopWords);
    var p, n := PositiveHits(relevant), NegativeHits(relevant);
    HitsBounded(relevant);
    KeywordConfidence(p, n);
  }

  /** Without a single hit the keyword scorer returns exactly the neutral
      sentinel tagged `'financial_keywords'`. */
  lemma KeywordScoreWithoutHits(tokens: seq<string>, stopWords: set<string>)
    requires PositiveHits(RelevantTokens(tokens, stopWords)) + NegativeHits(RelevantTokens(tokens, stopWords)) == 0
    ensures FinancialKeywordResult(tokens, stopWords) == EmptySentimentResult("financial_keywords")
  {
  }

  /** Hit counts add up over concatenation. */
  lemma {:induction false} HitsAppend(a: seq<string>, b: seq<string>)
    ensures PositiveHits(a + b) == PositiveHits(a) + PositiveHits(b)
    ensures NegativeHits(a + b) == NegativeHits(a) + NegativeHits(b)
    decreases |b|
  {
    if b == [] {
      assert a + b == a;
    } else {
      var b' := b[..|b| - 1];
      assert (a + b)[..|a + b| - 1] == a + b';
      HitsAppend(a, b');
    }
  }

  /** The keyword counts of one token followed by more tokens: the first
      token adds its own hit, if any, to the counts of the rest. */
  lemma TallyCons(token: string, rest: seq<string>, stopWords: set<string>)
    ensures var relevant := RelevantTokens([token] + rest, stopWords);
      var tail := RelevantTokens(rest, stopWords);
      var counted := !Ignored(token, stopWords);
      && PositiveHits(relevant) == PositiveHits(tail)
           + (if counted && token in PositiveKeywords then 1 else 0)
      && NegativeHits(relevant) == NegativeHits(tail)
           + (if counted && token !in PositiveKeywords && token in NegativeKeywords then 1 else 0)
  {
    RelevantTokensAppend([token], rest, stopWords);
    assert [token][..0] == [];
    HitsAppend(RelevantTokens([token], stopWords), RelevantTokens(rest, stopWords));
    assert PositiveHits([token]) == (if token in PositiveKeywords then 1 else 0) by {
      assert [token][..0] == [];
    }
    assert NegativeHits([token]) == (if token !in PositiveKeywords && token in NegativeKeywords then 1 else 0) by {
      assert [token][..0] == [];
    }
  }

  /** A lone token on neither list yields the neutral sentinel. */
  lemma UnlistedTokenIsNoHit(token: string, stopWords: set<string>)
    requires token !in PositiveKeywords && token !in NegativeKeywords
    ensures FinancialKeywordResult([token], stopWords) == EmptySentimentResult("financial_keywords")
  {
    TallyCons(token, [], stopWords);
    assert [token] + [] == [token];
  }

  /** Membership in the keyword lists is exact: the inflected form
      "profits" is no hit, whatever the stop-words. */
  lemma ProfitsIsNoHit(stopWords: set<string>)
    ensures PositiveHit("profits", stopWords) == 0 && NegativeHit("profits", stopWords) == 0
  {
    assert "profits" !in PositiveKeywords && "profits" !in NegativeKeywords;
  }

  /** Likewise "missed" is no hit, though "miss" is on the negative list. */
  lemma MissedIsNoHit(stopWords: set<string>)
    ensures PositiveHit("missed", stopWords) == 0 && NegativeHit("missed", stopWords) == 0
  {
    assert "missed" !in PositiveKeywords && "missed" !in NegativeKeywords;
  }

  /** The positive hit one token scores on its own. */
  function PositiveHit(token: string, stopWords: set<string>): nat {
    if !Ignored(token, stopWords) && token in PositiveKeywords then 1 else 0
  }

  /** The negative hit one token scores on its own. */
  function NegativeHit(token: string, stopWords: set<string>): nat {
    if !Ignored(token, stopWords) && token !in PositiveKeywords && token in NegativeKeywords then 1 else 0
  }

  /** The positive hits of the tokens, token by token. */
  function PositiveTally(tokens: seq<string>, stopWords: set<string>): nat {
    if tokens == [] then 0 else PositiveHit(tokens[0], stopWords) + PositiveTally(tokens[1..], stopWords)
  }

  /** The negative hits of the tokens, token by token. */
  function NegativeTally(tokens: seq<string>, stopWords: set<string>): nat {
    if tokens == [] then 0 else NegativeHit(tokens[0], stopWords) + NegativeTally(tokens[1..], stopWords)
  }

  /** The counters of the scan are the sums of what each token scores on
      its own. */
  lemma {:induction false} HitsAreTallies(tokens: seq<string>, stopWords: set<string>)
    ensures PositiveHits(RelevantTokens(tokens, stopWords)) == PositiveTally(tokens, stopWords)
    ensures NegativeHits(RelevantTokens(tokens, stopWords)) == NegativeTally(tokens, stopWords)
  {
    if tokens != [] {
      assert tokens == [tokens[0]] + tokens[1..];
      TallyCons(tokens[0], tokens[1..], stopWords);
      HitsAreTallies(tokens[1..], stopWords);
    }
  }

  /** The tallies from position k on are the hit at k plus the tallies
      after it. */
  lemma TallyStep(tokens: seq<string>, stopWords: set<string>, k: nat)
    requires k < |tokens|
    ensures PositiveTally(tokens[k..], stopWords) == PositiveHit(tokens[k], stopWords) + PositiveTally(tokens[k + 1..], stopWords)
    ensures NegativeTally(tokens[k..], stopWords) == NegativeHit(tokens[k], stopWords) + NegativeTally(tokens[k + 1..], stopWords)
  {
    assert tokens[k..][1..] == tokens[k + 1..];
  }

  /** "record" is a positive hit unless it is a stop-word. */
  lemma RecordIsPositive(stopWords: set<string>)
    requires "record" !in stopWords
    ensures PositiveHit("record", stopWords) == 1 && NegativeHit("record", stopWords) == 0
  {
    assert AllLetters("d");
    assert AllLetters("rd");
    assert AllLetters("ord");
    assert AllLetters("cord");
    assert AllLetters("ecord");
    assert "record" in PositiveKeywords;
  }

  /** "strong" is a positive hit unless it is a stop-word. */
  lemma StrongIsPositive(stopWords: set<string>)
    requires "strong" !in stopWords
    ensures PositiveHit("strong", stopWords) == 1 && NegativeHit("strong", stopWords) == 0
  {
    assert AllLetters("g");
    assert AllLetters("ng");
    assert AllLetters("ong");
    assert AllLetters("rong");
    assert AllLetters("trong");
    assert "strong" in PositiveKeywords;
  }

  /** "growth" is a positive hit unless it is a stop-word. */
  lemma GrowthIsPositive(stopWords: set<string>)
    requires "growth" !in stopWords
    ensures PositiveHit("growth", stopWords) == 1 && NegativeHit("growth", stopWords) == 0
  {
    assert AllLetters("h");
    assert AllLetters("th");
    assert AllLetters("wth");
    assert AllLetters("owth");
    assert AllLetters("rowth");
    assert "growth" in PositiveKeywords;
  }

  /** "and" is on neither list, so it is never a hit. */
  lemma AndIsUnlisted(stopWords: set<string>)
    ensures PositiveHit("and", stopWords) == 0 && NegativeHit("and", stopWords) == 0
  {
    assert "and" !in PositiveKeywords && "and" !in NegativeKeywords;
  }

  /** The tokens of "record profits and strong growth" (lower-cased) hit
      "record", "strong" and "growth": "profits" is no hit and "and" is on
      neither list. The result is score 1, confidence 0.3, positive. */
  lemma PositiveHeadline(stopWords: set<string>)
    requires "record" !in stopWords && "strong" !in stopWords && "growth" !in stopWords
    ensures var r := FinancialKeywordResult(["record", "profits", "and", "strong", "growth"], stopWords);
      && r == KeywordResult(3, 0)
      && r.score == Some(1.0) && r.confidence == 0.3 && r.verdict == Positive
  {
    var ts := ["record", "profits", "and", "strong", "growth"];
    HitsAreTallies(ts, stopWords);
    PositiveHeadlineTally(stopWords);
  }

  /** Token by token, the positive headline scores three positive hits. */
  lemma PositiveHeadlineTally(stopWords: set<string>)
    requires "record" !in stopWords && "strong" !in stopWords && "growth" !in stopWords
    ensures var ts := ["record", "profits", "and", "strong", "growth"];
      PositiveTally(ts, stopWords) == 3 && NegativeTally(ts, stopWords) == 0
  {
    var ts := ["record", "profits", "and", "strong", "growth"];
    RecordIsPositive(stopWords);
    ProfitsIsNoHit(stopWords);
    AndIsUnlisted(stopWords);
    StrongIsPositive(stopWords);
    GrowthIsPositive(stopWords);
    assert ts[0..] == ts && ts[5..] == [];
    TallyStep(ts, stopWords, 0);
    TallyStep(ts, stopWords, 1);
    TallyStep(ts, stopWords, 2);
    TallyStep(ts, stopWords, 3);
    TallyStep(ts, stopWords, 4);
  }

  /** "weak" is a negative hit unless it is a stop-word. */
  lemma WeakIsNegative(stopWords: set<string>)
    requires "weak" !in stopWords
    ensures PositiveHit("weak", stopWords) == 0 && NegativeHit("weak", stopWords) == 1
  {
    assert AllLetters("k");
    assert AllLetters("ak");
    assert AllLetters("eak");
    assert "weak" !in PositiveKeywords && "weak" in NegativeKeywords;
  }

  /** "risk" is a negative hit unless it is a stop-word. */
  lemma RiskIsNegative(stopWords: set<string>)
    requires "risk" !in stopWords
    ensures PositiveHit("risk", stopWords) == 0 && NegativeHit("risk", stopWords) == 1
  {
    assert AllLetters("k");
    assert AllLetters("sk");
    assert AllLetters("isk");
    assert "risk" !in PositiveKeywords && "risk" in NegativeKeywords;
  }

  /** "earnings" is on neither list, so it is never a hit. */
  lemma EarningsIsUnlisted(stopWords: set<string>)
    ensures PositiveHit("earnings", stopWords) == 0 && NegativeHit("earnings", stopWords) == 0
  {
    assert "earnings" !in PositiveKeywords && "earnings" !in NegativeKeywords;
  }

  /** "outlook" is on neither list, so it is never a hit. */
  lemma OutlookIsUnlisted(stopWords: set<string>)
    ensures PositiveHit("outlook", stopWords) == 0 && NegativeHit("outlook", stopWords) == 0
  {
    assert "outlook" !in PositiveKeywords && "outlook" !in NegativeKeywords;
  }

  /** "significant" is on neither list, so it is never a hit. */
  lemma SignificantIsUnlisted(stopWords: set<string>)
    ensures PositiveHit("significant", stopWords) == 0 && NegativeHit("significant", stopWords) == 0
  {
    assert "significant" !in PositiveKeywords && "significant" !in NegativeKeywords;
  }

  /** A comma is not alphabetic, so it is never a hit. */
  lemma CommaIsIgnored(stopWords: set<string>)
    ensures PositiveHit(",", stopWords) == 0 && NegativeHit(",", stopWords) == 0
  {
    assert !IsAlpha(",");
  }

  /** The tokens of "missed earnings, weak outlook, significant risk"
      (lower-cased, the commas split off as tokens) hit "weak" and "risk"
      only: "missed" is no hit and the commas are not alphabetic. The
      result is score -1, confidence 0.2, negative. */
  lemma NegativeHeadline(stopWords: set<string>)
    requires "weak" !in stopWords && "risk" !in stopWords
    ensures var r := FinancialKeywordResult(
        ["missed", "earnings", ",", "weak", "outlook", ",", "significant", "risk"], stopWords);
      && r == KeywordResult(0, 2)
      && r.score == Some(-1.0) && r.confidence == 0.2 && r.verdict == Negative
  {
    var ts := ["missed", "earnings", ",", "weak", "outlook", ",", "significant", "risk"];
    HitsAreTallies(ts, stopWords);
    NegativeHeadlineTally(stopWords);
  }

  /** Token by token, the negative headline scores two negative hits: one
      in its first four tokens and one in its last four. */
  lemma NegativeHeadlineTally(stopWords: set<string>)
    requires "weak" !in stopWords && "risk" !in stopWords
    ensures var ts := ["missed", "earnings", ",", "weak", "outlook", ",", "significant", "risk"];
      PositiveTally(ts, stopWords) == 0 && NegativeTally(ts, stopWords) == 2
  {
    var ts := ["missed", "earnings", ",", "weak", "outlook", ",", "significant", "risk"];
    NegativeHeadlineTail(stopWords);
    MissedIsNoHit(stopWords);
    EarningsIsUnlisted(stopWords);
    CommaIsIgnored(stopWords);
    WeakIsNegative(stopWords);
    assert ts[0..] == ts;
    TallyStep(ts, stopWords, 0);
    TallyStep(ts, stopWords, 1);
    TallyStep(ts, stopWords, 2);
    TallyStep(ts, stopWords, 3);
  }

  /** The last four tokens of the negative headline score one negative
      hit. */
  lemma NegativeHeadlineTail(stopWords: set<string>)
    requires "risk" !in stopWords
    ensures var ts := ["missed", "earnings", ",", "weak", "outlook", ",", "significant", "risk"];
      PositiveTally(ts[4..], stopWords) == 0 && NegativeTally(ts[4..], stopWords) == 1
  {
    var ts := ["missed", "earnings", ",", "weak", "outlook", ",", "significant", "risk"];
    OutlookIsUnlisted(stopWords);
    CommaIsIgnored(stopWords);
    SignificantIsUnlisted(stopWords);
    RiskIsNegative(stopWords);
    assert ts[8..] == [];
    TallyStep(ts, stopWords, 4);
    TallyStep(ts, stopWords, 5);
    TallyStep(ts, stopWords, 6);
    TallyStep(ts, stopWords, 7);
  }

  // ---------------------------------------------------------------------------
  // Consensus
  // ---------------------------------------------------------------------------

  /** The fixed weight of each scorer in the consensus. */
  const Weights: map<string, real> := map["textblob" := 0.4, "vader" := 0.4, "financial_keywords" := 0.2]

  /** Exactly the three scorers are weighted, TextBlob and VADER at 0.4 and
      the keyword scorer at 0.2, and the weights add up to 1. */
  lemma WeightTable()
    ensures Weights.Keys == {"textblob", "vader", "financial_keywords"}
    ensures Weights["textblob"] == 0.4 && Weights["vader"] == 0.4 && Weights["financial_keywords"] == 0.2
    ensures Weights["textblob"] + Weights["vader"] + Weights["financial_keywords"] == 1.0
  {
  }

  /** A result takes part in the consensus when its method has a weight and
      its score is present. */
  predicate Contributes(r: MethodResult) {
    r.methodName in Weights && r.score.Some?
  }

  /** The weight a result carries: its method's weight, or nothing. */
  function WeightOf(r: MethodResult): (w: real)
    ensures Contributes(r) ==> w == Weights[r.methodName] && w > 0.0
    ensures !Contributes(r) ==> w == 0.0
  {
    if Contributes(r) then Weights[r.methodName] else 0.0
  }

  /** Accumulated weight of the results, in loop order. */
  function TotalWeight(rs: seq<MethodResult>): real {
    if rs == [] then 0.0 else TotalWeight(rs[..|rs| - 1]) + WeightOf(rs[|rs| - 1])
  }

  /** Accumulated weighted score. */
  function ScoreSum(rs: seq<MethodResult>): real {
    if rs == [] then 0.0
    else
      var r := rs[|rs| - 1];
      ScoreSum(rs[..|rs| - 1]) + ScoreTerm(r)
  }

  /** Accumulated weighted confidence. */
  function ConfidenceSum(rs: seq<MethodResult>): real {
    if rs == [] then 0.0
    else
      var r := rs[|rs| - 1];
      ConfidenceSum(rs[..|rs| - 1]) + ConfidenceTerm(r)
  }

  /** Accumulated weight voting for label `l`. */
  function Votes(rs: seq<MethodResult>, l: Label): real {
    if rs == [] then 0.0
    else
      var r := rs[|rs| - 1];
      Votes(rs[..|rs| - 1], l) + VoteTerm(r, l)
  }

  /** The weight one result adds to the votes for `l`. */
  function VoteTerm(r: MethodResult, l: Label): real {
    if r.verdict == l then WeightOf(r) else 0.0
  }

  /** The tally entry of label `l`. */
  function Tally(l: Label, pos: real, neg: real, neu: real): real {
    match l
    case Positive => pos
    case Negative => neg
    case Neutral => neu
  }

  /** `max(label_votes, key=label_votes.get)`: a label with the most votes,
      the earliest key (positive, negative, neutral) on a tie. */
  function Winner(pos: real, neg: real, neu: real): (w: Label)
    ensures forall l :: Tally(l, pos, neg, neu) <= Tally(w, pos, neg, neu)
    ensures forall l :: Tally(l, pos, neg, neu) == Tally(w, pos, neg, neu) ==> Rank(w) <= Rank(l)
  {
    if pos >= neg && pos >= neu then Positive
    else if neg >= neu then Negative
    else Neutral
  }

  /** The consensus of the three scorers: the weighted means of scores and
      confidences over the results that contribute, the label with the most
      weight behind it; without any weight, the neutral sentinel tagged
      `'combined'`. */
  function Combined(textblob: MethodResult, vader: MethodResult, keywords: MethodResult): (a: Analysis)
    ensures a.Plain? <==> !Contributes(textblob) && !Contributes(vader) && !Contributes(keywords)
    ensures a.Plain? ==> a.result == EmptySentimentResult("combined")
    ensures a.Consensus? ==>
      && a.textblob == textblob && a.vader == vader && a.financialKeywords == keywords
      && var rs := [textblob, vader, keywords];
         && (forall l :: Votes(rs, l) <= Votes(rs, a.sentimentLabel))
         && a.sentimentLabel == Winner(Votes(rs, Positive), Votes(rs, Negative), Votes(rs, Neutral))
         && TotalWeight(rs) > 0.0
         && a.sentimentScore == ScoreSum(rs) / TotalWeight(rs)
         && a.confidence == ConfidenceSum(rs) / TotalWeight(rs)
  {
    var rs := [textblob, vader, keywords];
    WeightsPositive(rs);
    assert rs[0] == textblob && rs[1] == vader && rs[2] == keywords;
    var total := TotalWeight(rs);
    if total == 0.0 then Plain(EmptySentimentResult("combined"))
    else
      var w := Winner(Votes(rs, Positive), Votes(rs, Negative), Votes(rs, Neutral));
      assert forall l :: Votes(rs, l) == Tally(l, Votes(rs, Positive), Votes(rs, Negative), Votes(rs, Neutral));
      Consensus(ScoreSum(rs) / total, ConfidenceSum(rs) / total, w, textblob, vader, keywords)
  }

  /** The accumulated weight is zero exactly when no result contributes. */
  lemma {:induction false} WeightsPositive(rs: seq<MethodResult>)
    ensures TotalWeight(rs) >= 0.0
    ensures TotalWeight(rs) == 0.0 <==> forall k :: 0 <= k < |rs| ==> !Contributes(rs[k])
  {
    if rs != [] {
      WeightsPositive(rs[..|rs| - 1]);
    }
  }

  /** `_combine_sentiment_results`: one pass over the three results,
      accumulating weighted score, weighted confidence, weight and the vote
      tally, then the means and the majority label. */
  method CombineSentimentResults(textblob: MethodResult, vader: MethodResult, keywords: MethodResult)
    returns (a: Analysis)
    ensures a == Combined(textblob, vader, keywords)
  {
    var results := [textblob, vader, keywords];
    var totalScore, totalConfidence, totalWeight := 0.0, 0.0, 0.0;
    var labelVotes := map[Positive := 0.0, Negative := 0.0, Neutral := 0.0];
    for i := 0 to |results|
      invariant totalScore == ScoreSum(results[..i])
      invariant totalConfidence == ConfidenceSum(results[..i])
      invariant totalWeight == TotalWeight(results[..i])
      invariant Positive in labelVotes && labelVotes[Positive] == Votes(results[..i], Positive)
      invariant Negative in labelVotes && labelVotes[Negative] == Votes(results[..i], Negative)
      invariant Neutral in labelVotes && labelVotes[Neutral] == Votes(results[..i], Neutral)
    {
      var result := results[i];
      assert results[..i + 1] == results[..i] + [result];
      if result.methodName in Weights && result.score.Some? {
        StepContributing(results[..i], result);
        var weight := Weights[result.methodName];
        totalScore := totalScore + result.score.value * weight;
        totalConfidence := totalConfidence + result.confidence * weight;
        totalWeight := totalWeight + weight;
        labelVotes := labelVotes[result.verdict := labelVotes[result.verdict] + weight];
      } else {
        StepSilent(results[..i], result);
      }
    }
    assert results[..|results|] == results;
    if totalWeight == 0.0 {
      return Plain(EmptySentimentResult("combined"));
    }
    var finalScore := totalScore / totalWeight;
    var finalConfidence := totalConfidence / totalWeight;
    var finalLabel := Winner(labelVotes[Positive], labelVotes[Negative], labelVotes[Neutral]);
    a := Consensus(finalScore, finalConfidence, finalLabel, textblob, vader, keywords);
  }

  /** Appending a contributing result adds its weighted score, weighted
      confidence and weight, and its weight to the votes of its label. */
  lemma StepContributing(rs: seq<MethodResult>, r: MethodResult)
    requires Contributes(r)
    ensures var w := Weights[r.methodName];
      && TotalWeight(rs + [r]) == TotalWeight(rs) + w
      && ScoreSum(rs + [r]) == ScoreSum(rs) + r.score.value * w
      && ConfidenceSum(rs + [r]) == ConfidenceSum(rs) + r.confidence * w
      && Votes(rs + [r], Positive) == Votes(rs, Positive) + (if r.verdict == Positive then w else 0.0)
      && Votes(rs + [r], Negative) == Votes(rs, Negative) + (if r.verdict == Negative then w else 0.0)
      && Votes(rs + [r], Neutral) == Votes(rs, Neutral) + (if r.verdict == Neutral then w else 0.0)
  {
    assert (rs + [r])[..|rs|] == rs;
  }

  /** Appending a result that does not contribute changes no accumulator. */
  lemma StepSilent(rs: seq<MethodResult>, r: MethodResult)
    requires !Contributes(r)
    ensures TotalWeight(rs + [r]) == TotalWeight(rs)
    ensures ScoreSum(rs + [r]) == ScoreSum(rs)
    ensures ConfidenceSum(rs + [r]) == ConfidenceSum(rs)
    ensures Votes(rs + [r], Positive) == Votes(rs, Positive)
    ensures Votes(rs + [r], Negative) == Votes(rs, Negative)
    ensures Votes(rs + [r], Neutral) == Votes(rs, Neutral)
  {
    assert (rs + [r])[..|rs|] == rs;
  }

  /** Every unit of weight votes for exactly one label. */
  lemma {:induction false} VotesPartitionWeight(rs: seq<MethodResult>)
    ensures Votes(rs, Positive) + Votes(rs, Negative) + Votes(rs, Neutral) == TotalWeight(rs)
    ensures forall l :: Votes(rs, l) >= 0.0
  {
    if rs != [] {
      VotesPartitionWeight(rs[..|rs| - 1]);
    }
  }

  /** Scores in [-1, 1] and confidences in [0, 1] keep the weighted sums
      within the corresponding multiples of the accumulated weight. */
  lemma {:induction false} SumsWithinWeight(rs: seq<MethodResult>)
    requires forall k :: 0 <= k < |rs| ==> InRange(rs[k])
    ensures -TotalWeight(rs) <= ScoreSum(rs) <= TotalWeight(rs)
    ensures 0.0 <= ConfidenceSum(rs) <= TotalWeight(rs)
  {
    if rs != [] {
      SumsWithinWeight(rs[..|rs| - 1]);
      var r := rs[|rs| - 1];
      assert InRange(r);
      if Contributes(r) {
        var w := WeightOf(r);
        assert -w <= r.score.value * w <= w;
        assert 0.0 <= r.confidence * w <= w;
      }
    }
  }

  /** When every input is in range, the consensus score lies in [-1, 1], its
      confidence in [0, 1], and the winning label carries at least a third
      of the weight. */
  lemma ConsensusInRange(textblob: MethodResult, vader: MethodResult, keywords: MethodResult)
    requires InRange(textblob) && InRange(vader) && InRange(keywords)
    ensures var a := Combined(textblob, vader, keywords);
      a.Consensus? ==>
        && -1.0 <= a.sentimentScore <= 1.0
        && 0.0 <= a.confidence <= 1.0
        && 3.0 * Votes([textblob, vader, keywords], a.sentimentLabel) >= TotalWeight([textblob, vader, keywords])
  {
    var rs := [textblob, vader, keywords];
    var a := Combined(textblob, vader, keywords);
    if a.Consensus? {
      SumsWithinWeight(rs);
      VotesPartitionWeight(rs);
      WeightsPositive(rs);
      var total := TotalWeight(rs);
      MeanWithin(ScoreSum(rs), total, -1.0, 1.0);
      MeanWithin(ConfidenceSum(rs), total, 0.0, 1.0);
    }
  }

  /** Unfolds the weight and the vote tally over three results into their
      three terms. */
  lemma UnfoldWeights(x: MethodResult, y: MethodResult, z: MethodResult)
    ensures TotalWeight([x, y, z]) == WeightOf(x) + WeightOf(y) + WeightOf(z)
    ensures forall l :: Votes([x, y, z], l) == VoteTerm(x, l) + VoteTerm(y, l) + VoteTerm(z, l)
  {
    assert [x, y, z][..2] == [x, y];
    assert [x, y][..1] == [x];
    assert [x][..0] == [];
    assert TotalWeight([x]) == WeightOf(x);
    assert TotalWeight([x, y]) == WeightOf(x) + WeightOf(y);
    forall l ensures Votes([x, y, z], l) == VoteTerm(x, l) + VoteTerm(y, l) + VoteTerm(z, l) {
      assert Votes([x], l) == VoteTerm(x, l);
      assert Votes([x, y], l) == VoteTerm(x, l) + VoteTerm(y, l);
    }
  }

  /** The weighted term one result adds to the score sum. */
  function ScoreTerm(r: MethodResult): real {
    if Contributes(r) then r.score.value * WeightOf(r) else 0.0
  }

  /** The weighted term one result adds to the confidence sum. */
  function ConfidenceTerm(r: MethodResult): real {
    if Contributes(r) then r.confidence * WeightOf(r) else 0.0
  }

  /** Unfolds the weighted sums over three results into their three terms. */
  lemma UnfoldSums(x: MethodResult, y: MethodResult, z: MethodResult)
    ensures ScoreSum([x, y, z]) == ScoreTerm(x) + ScoreTerm(y) + ScoreTerm(z)
    ensures ConfidenceSum([x, y, z]) == ConfidenceTerm(x) + ConfidenceTerm(y) + ConfidenceTerm(z)
  {
    assert [x, y, z][..2] == [x, y];
    assert [x, y][..1] == [x];
    assert [x][..0] == [];
    assert ScoreSum([x]) == ScoreTerm(x);
    assert ScoreSum([x, y]) == ScoreTerm(x) + ScoreTerm(y);
    assert ConfidenceSum([x]) == ConfidenceTerm(x);
    assert ConfidenceSum([x, y]) == ConfidenceTerm(x) + ConfidenceTerm(y);
  }

  /** The three scorers, tagged as the engine tags them. */
  predicate Tagged(textblob: MethodResult, vader: MethodResult, keywords: MethodResult) {
    textblob.methodName == "textblob" && vader.methodName == "vader"
    && keywords.methodName == "financial_keywords"
  }

  /** With all three scorers present the weights add up to one, so the
      consensus is the plain weighted sum 0.4 / 0.4 / 0.2 of scores and of
      confidences. */
  lemma FullWeightMean(textblob: MethodResult, vader: MethodResult, keywords: MethodResult)
    requires Tagged(textblob, vader, keywords)
    requires textblob.score.Some? && vader.score.Some? && keywords.score.Some?
    ensures var a := Combined(textblob, vader, keywords);
      && a.Consensus?
      && a.sentimentScore == 0.4 * textblob.score.value + 0.4 * vader.score.value + 0.2 * keywords.score.value
      && a.confidence == 0.4 * textblob.confidence + 0.4 * vader.confidence + 0.2 * keywords.confidence
  {
    UnfoldWeights(textblob, vader, keywords);
    UnfoldSums(textblob, vader, keywords);
  }

  /** When the polarity and valence scorers are present and agree, their
      0.8 of weight outvotes the keyword scorer whatever it says. */
  lemma AgreeingPairDecides(textblob: MethodResult, vader: MethodResult, keywords: MethodResult)
    requires Tagged(textblob, vader, keywords)
    requires textblob.score.Some? && vader.score.Some? && textblob.verdict == vader.verdict
    ensures var a := Combined(textblob, vader, keywords);
      a.Consensus? && a.sentimentLabel == textblob.verdict
  {
    UnfoldWeights(textblob, vader, keywords);
    var a := Combined(textblob, vader, keywords);
    var rs := [textblob, vader, keywords];
    assert Votes(rs, textblob.verdict) >= 0.8;
    assert forall l :: l != textblob.verdict ==> Votes(rs, l) <= 0.2;
  }

  /** A polarity model that raised is not left out of the consensus: its
      sentinel keeps its 0.4 of weight with score zero and votes neutral, so
      the score is damped to 0.4 / 0.2 of the others and, unless the keyword
      scorer takes a side, the label is neutral whatever the valence model
      says. */
  lemma FailedModelStillVotes(vader: MethodResult, keywords: MethodResult)
    requires Tagged(EmptySentimentResult("textblob"), vader, keywords)
    requires vader.score.Some? && keywords.score.Some?
    ensures var a := Combined(EmptySentimentResult("textblob"), vader, keywords);
      && a.Consensus?
      && a.sentimentScore == 0.4 * vader.score.value + 0.2 * keywords.score.value
      && a.confidence == 0.4 * vader.confidence + 0.2 * keywords.confidence
      && (keywords.verdict == Neutral ==> a.sentimentLabel == Neutral)
  {
    var textblob := EmptySentimentResult("textblob");
    FullWeightMean(textblob, vader, keywords);
    UnfoldWeights(textblob, vader, keywords);
    var rs := [textblob, vader, keywords];
    if keywords.verdict == Neutral {
      assert Votes(rs, Neutral) >= 0.6;
      assert forall l :: l != Neutral ==> Votes(rs, l) <= 0.4;
    }
  }

  // ---------------------------------------------------------------------------
  // Analysis of one text, and of a batch
  // ---------------------------------------------------------------------------

  /** The outside world of the engine: the URL and e-mail removal, the
      polarity and valence models (`None` when a model raises), the word
      tokenizer (`Err` when it raises) and the stop-word set. */
  datatype Libraries = Libraries(
    dropLinks: string -> string,
    polarity: string -> Option<PolarityReading>,
    valence: string -> Option<ValenceReading>,
    tokenize: string -> Result<seq<string>>,
    stopWords: set<string>)

  /** Both models report in-range readings for the cleaned text. */
  predicate ReadingsInRange(libs: Libraries, cleaned: string) {
    (libs.polarity(cleaned).Some? ==> PolarityInRange(libs.polarity(cleaned).value))
    && (libs.valence(cleaned).Some? ==> ValenceInRange(libs.valence(cleaned).value))
  }

  /** `analyze_sentiment`: blank text short-circuits to the sentinel tagged
      `'unknown'`; any other text is cleaned, scored three ways and combined.
      Model failures are absorbed; a tokenizer failure propagates. */
  function Sentiment(text: string, libs: Libraries): (r: Result<Analysis>)
    ensures Strip(text) == [] ==> r == Ok(Plain(EmptySentimentResult("unknown")))
    ensures r.Ok? && r.value.Plain? <==> Strip(text) == []
    ensures r.Err? <==> Strip(text) != [] && libs.tokenize(Lower(Preprocess(text, libs.dropLinks))).Err?
  {
    if Strip(text) == [] then Ok(Plain(EmptySentimentResult("unknown")))
    else
      var cleaned := Preprocess(text, libs.dropLinks);
      var textblob := AnalyzeWithTextBlob(libs.polarity(cleaned));
      var vader := AnalyzeWithVader(libs.valence(cleaned));
      match libs.tokenize(Lower(cleaned))
      case Err(e) => Err(e)
      case Ok(tokens) => Ok(Combined(textblob, vader, FinancialKeywordResult(tokens, libs.stopWords)))
  }

  /** The analysis of non-blank text is the 0.4 / 0.4 / 0.2 weighted
      consensus of the three scorers run on the cleaned text, each kept
      verbatim; a scorer that failed still counts, with score and confidence
      zero and a neutral vote. */
  lemma SentimentIsWeightedConsensus(text: string, libs: Libraries)
    requires Sentiment(text, libs).Ok? && Strip(text) != []
    ensures var cleaned := Preprocess(text, libs.dropLinks);
      var textblob := AnalyzeWithTextBlob(libs.polarity(cleaned));
      var vader := AnalyzeWithVader(libs.valence(cleaned));
      var keywords := FinancialKeywordResult(libs.tokenize(Lower(cleaned)).value, libs.stopWords);
      var a := Sentiment(text, libs).value;
      && a.Consensus?
      && a.textblob == textblob && a.vader == vader && a.financialKeywords == keywords
      && a.sentimentScore == 0.4 * textblob.score.value + 0.4 * vader.score.value + 0.2 * keywords.score.value
      && a.confidence == 0.4 * textblob.confidence + 0.4 * vader.confidence + 0.2 * keywords.confidence
  {
    var cleaned := Preprocess(text, libs.dropLinks);
    var textblob := AnalyzeWithTextBlob(libs.polarity(cleaned));
    var vader := AnalyzeWithVader(libs.valence(cleaned));
    var keywords := FinancialKeywordResult(libs.tokenize(Lower(cleaned)).value, libs.stopWords);
    FullWeightMean(textblob, vader, keywords);
  }

  /** With in-range model readings the analysis of any text has its score
      in [-1, 1] and its confidence in [0, 1]. */
  lemma SentimentInRange(text: string, libs: Libraries)
    requires ReadingsInRange(libs, Preprocess(text, libs.dropLinks))
    requires Sentiment(text, libs).Ok?
    ensures var a := Sentiment(text, libs).value;
      && (a.Consensus? ==> -1.0 <= a.sentimentScore <= 1.0 && 0.0 <= a.confidence <= 1.0)
      && (a.Plain? ==> InRange(a.result))
  {
    if Strip(text) != [] {
      var cleaned := Preprocess(text, libs.dropLinks);
      var textblob := AnalyzeWithTextBlob(libs.polarity(cleaned));
      var vader := AnalyzeWithVader(libs.valence(cleaned));
      var keywords := FinancialKeywordResult(libs.tokenize(Lower(cleaned)).value, libs.stopWords);
      assert Sentiment(text, libs).value == Combined(textblob, vader, keywords);
      ConsensusInRange(textblob, vader, keywords);
    }
  }

  /** `analyze_sentiment`, running the keyword scan and the combination as
      the loops they are. */
  method AnalyzeSentiment(text: string, libs: Libraries) returns (r: Result<Analysis>)
    ensures r == Sentiment(text, libs)
  {
    if Strip(text) == [] {
      return Ok(Plain(EmptySentimentResult("unknown")));
    }
    var cleaned := Preprocess(text, libs.dropLinks);
    var textblob := AnalyzeWithTextBlob(libs.polarity(cleaned));
    var vader := AnalyzeWithVader(libs.valence(cleaned));
    var tokens := libs.tokenize(Lower(cleaned));
    if tokens.Err? {
      return Err(tokens.error);
    }
    var keywords := AnalyzeFinancialKeywords(tokens.value, libs.stopWords);
    var combined := CombineSentimentResults(textblob, vader, keywords);
    r := Ok(combined);
  }

  /** One entry of a batch: the analysis, the position of its text and the
      message of the exception that replaced it, if any. */
  datatype BatchEntry = BatchEntry(analysis: Analysis, textIndex: nat, error: Option<string>)

  /** The entry for the text at `index`: its analysis, or the sentinel tagged
      `'error'` with the exception's message. */
  function BatchEntryFor(outcome: Result<Analysis>, index: nat): (e: BatchEntry)
    ensures e.textIndex == index
    ensures e.error.Some? <==> outcome.Err?
    ensures outcome.Ok? ==> e.analysis == outcome.value
    ensures outcome.Err? ==> e.analysis == Plain(EmptySentimentResult("error")) && e.error.value == outcome.error
  {
    match outcome
    case Ok(a) => BatchEntry(a, index, None)
    case Err(message) => BatchEntry(Plain(EmptySentimentResult("error")), index, Some(message))
  }

  /** `[f(x) for x in xs]`. */
  function MapSeq<A, B>(xs: seq<A>, f: A -> B): (ys: seq<B>)
    ensures |ys| == |xs|
  {
    if xs == [] then []
    else
      var n := |xs| - 1;
      MapSeq(xs[..n], f) + [f(xs[n])]
  }

  /** Element i of the mapped list is the image of element i. */
  lemma {:induction false} MapSeqAt<A, B>(xs: seq<A>, f: A -> B, i: nat)
    requires i < |xs|
    ensures MapSeq(xs, f)[i] == f(xs[i])
  {
    var n := |xs| - 1;
    if i < n {
      MapSeqAt(xs[..n], f, i);
      assert xs[..n][i] == xs[i];
    }
  }

  /** The outcome of analysing each text, in order. */
  function Outcomes(texts: seq<string>, libs: Libraries): (outcomes: seq<Result<Analysis>>)
    ensures |outcomes| == |texts|
  {
    MapSeq(texts, (text: string) => Sentiment(text, libs))
  }

  /** Outcome i is the analysis of text i. */
  lemma OutcomesAt(texts: seq<string>, libs: Libraries, i: nat)
    requires i < |texts|
    ensures Outcomes(texts, libs)[i] == Sentiment(texts[i], libs)
  {
    MapSeqAt(texts, (text: string) => Sentiment(text, libs), i);
  }

  /** The entries for a list of outcomes, one per outcome, in order, each
      tagged with its position. */
  function Entries(outcomes: seq<Result<Analysis>>): (entries: seq<BatchEntry>)
    ensures |entries| == |outcomes|
  {
    if outcomes == [] then []
    else
      var n := |outcomes| - 1;
      Entries(outcomes[..n]) + [BatchEntryFor(outcomes[n], n)]
  }

  /** The entries of a batch, one per text, in order. */
  function BatchEntries(texts: seq<string>, libs: Libraries): (entries: seq<BatchEntry>)
    ensures |entries| == |texts|
  {
    Entries(Outcomes(texts, libs))
  }

  /** Entry i is the entry for outcome i at position i. */
  lemma {:induction false} EntriesAt(outcomes: seq<Result<Analysis>>, i: nat)
    requires i < |outcomes|
    ensures Entries(outcomes)[i] == BatchEntryFor(outcomes[i], i)
  {
    var n := |outcomes| - 1;
    if i < n {
      EntriesAt(outcomes[..n], i);
    }
  }

  /** One more outcome adds its own entry at the end. */
  lemma EntriesStep(outcomes: seq<Result<Analysis>>, i: nat)
    requires i < |outcomes|
    ensures Entries(outcomes[..i + 1]) == Entries(outcomes[..i]) + [BatchEntryFor(outcomes[i], i)]
  {
    assert outcomes[..i + 1][..i] == outcomes[..i];
  }

  /** Each entry of a batch is the entry for its own text and index. */
  lemma BatchEntriesAt(texts: seq<string>, libs: Libraries, i: nat)
    requires i < |texts|
    ensures BatchEntries(texts, libs)[i] == BatchEntryFor(Sentiment(texts[i], libs), i)
  {
    EntriesAt(Outcomes(texts, libs), i);
    OutcomesAt(texts, libs, i);
  }

  /** `analyze_batch`: one entry per text, in order, each tagged with its
      index; a text whose analysis raises yields an error entry and the
      batch carries on. */
  method AnalyzeBatch(texts: seq<string>, libs: Libraries) returns (results: seq<BatchEntry>)
    ensures results == BatchEntries(texts, libs)
  {
    ghost var outcomes := Outcomes(texts, libs);
    results := [];
    for i := 0 to |texts|
      invariant results == Entries(outcomes[..i])
    {
      var outcome := AnalyzeSentiment(texts[i], libs);
      var entry;
      match outcome {
        case Ok(analysis) =>
          entry := BatchEntry(analysis, i, None);
        case Err(message) =>
          entry := BatchEntry(Plain(EmptySentimentResult("error")), i, Some(message));
      }
      OutcomesAt(texts, libs, i);
      assert entry == BatchEntryFor(outcomes[i], i);
      EntriesStep(outcomes, i);
      results := results + [entry];
    }
    assert outcomes[..|texts|] == outcomes;
  }

  /** A batch entry carries an error exactly when its text is not blank and
      the tokenizer fails on it; blank texts get the `'unknown'` sentinel. */
  lemma BatchErrorsComeFromTokenizer(texts: seq<string>, libs: Libraries, i: nat)
    requires i < |texts|
    ensures var e := BatchEntries(texts, libs)[i];
      && e.textIndex == i
      && (e.error.Some? <==> Strip(texts[i]) != [] && libs.tokenize(Lower(Preprocess(texts[i], libs.dropLinks))).Err?)
      && (Strip(texts[i]) == [] ==> e.analysis == Plain(EmptySentimentResult("unknown")))
  {
    BatchEntriesAt(texts, libs, i);
  }
}
