/** A model of the readability component of spacy-textdescriptives: eight
    readability scores computed from a document's precomputed statistics.
    Floating-point numbers are modelled as exact reals, and the square root
    that the source writes as `** 0.5` is a parameter that every caller
    supplies (see IsSquareRoot). */
module Readability {

  /** The document statistics that upstream pipeline components attach to a
      document; this component only reads them. */
  datatype DocStats = DocStats(
    sentenceLengthMean: real,     // mean number of tokens per sentence
    tokenLengthMean: real,        // mean number of characters per token
    syllablesPerTokenMean: real,  // mean number of syllables per token
    nSentences: nat,
    nTokens: nat,
    syllables: seq<int>,          // syllable count of each token
    filteredTokens: seq<string>   // content tokens, punctuation excluded
  )

  /** The only exception the computation can raise, with the key of the
      score whose formula raised it. */
  datatype Error = ZeroDivisionError(metric: string)

  datatype Result<T> = Ok(value: T) | Err(error: Error)

  /** The keys of the score mapping, in the order in which the source
      evaluates them. */
  const SCORE_ORDER: seq<string> := [
    "flesch_reading_ease",
    "flesch_kincaid_grade",
    "smog",
    "gunning_fog",
    "automated_readability_index",
    "coleman_liau_index",
    "lix",
    "rix"
  ]

  const SCORE_KEYS: set<string> := set k | k in SCORE_ORDER

  /** A sequence without repeated elements has as many distinct elements as
      it has positions. */
  lemma {:induction false} DistinctElementsCount<T>(s: seq<T>)
    requires forall i, j :: 0 <= i < j < |s| ==> s[i] != s[j]
    ensures |set x | x in s| == |s|
  {
    if s != [] {
      DistinctElementsCount(s[1..]);
      assert (set x | x in s) == {s[0]} + (set x | x in s[1..]);
      assert s[0] !in s[1..];
    }
  }

  /** The eight keys are distinct. */
  lemma ScoreKeysCount()
    ensures |SCORE_KEYS| == 8
  {
    DistinctElementsCount(SCORE_ORDER);
  }

  /** `sqrt` behaves as the square root on the non-negative reals: it maps 0
      to 0, and every other non-negative x to the non-negative number whose
      square is x. */
  ghost predicate IsSquareRoot(sqrt: real -> real) {
    && sqrt(0.0) == 0.0
    && forall x :: 0.0 <= x ==> 0.0 <= sqrt(x) && sqrt(x) * sqrt(x) == x
  }

  lemma SqrtStrictlyIncreasing(sqrt: real -> real, x: real, y: real)
    requires IsSquareRoot(sqrt)
    requires 0.0 <= x < y
    ensures sqrt(x) < sqrt(y)
  {
  }

  // ---------------------------------------------------------------------
  // Counting hard and long words (the two list comprehensions)
  // ---------------------------------------------------------------------

  /** The elements of `s` that satisfy `p`, in order: the list
      comprehension `[x for x in s if p(x)]`. */
  function Filter<T>(s: seq<T>, p: T -> bool): (r: seq<T>)
    ensures |r| <= |s|
    ensures forall x :: x in r ==> x in s && p(x)
    ensures forall x :: x in s && p(x) ==> x in r
  {
    if s == [] then []
    else if p(s[0]) then [s[0]] + Filter(s[1..], p)
    else Filter(s[1..], p)
  }

  /** The positions of `s` whose element satisfies `p`. */
  ghost function Indices<T>(s: seq<T>, p: T -> bool): set<int> {
    set i | 0 <= i < |s| && p(s[i])
  }

  lemma {:induction false} FilterSnoc<T>(s: seq<T>, x: T, p: T -> bool)
    ensures Filter(s + [x], p) == Filter(s, p) + (if p(x) then [x] else [])
  {
    if s == [] {
      assert s + [x] == [x];
    } else {
      assert (s + [x])[0] == s[0];
      assert (s + [x])[1..] == s[1..] + [x];
      FilterSnoc(s[1..], x, p);
    }
  }

  lemma IndicesSnoc<T>(s: seq<T>, x: T, p: T -> bool)
    ensures |s| !in Indices(s, p)
    ensures Indices(s + [x], p) == Indices(s, p) + (if p(x) then {|s|} else {})
  {
  }

  /** The length of the filtered list is the number of positions whose
      element satisfies `p`. */
  lemma {:induction false} FilterLengthIsIndexCount<T>(s: seq<T>, p: T -> bool)
    ensures |Filter(s, p)| == |Indices(s, p)|
  {
    if s == [] {
      assert Indices(s, p) == {};
    } else {
      var init, last := s[..|s| - 1], s[|s| - 1];
      assert s == init + [last];
      FilterSnoc(init, last, p);
      FilterLengthIsIndexCount(init, p);
      IndicesSnoc(init, last, p);
    }
  }

  /** Every element is kept exactly when all of them satisfy `p`. */
  lemma {:induction false} FilterKeepsAllIff<T>(s: seq<T>, p: T -> bool)
    ensures |Filter(s, p)| == |s| <==> forall i :: 0 <= i < |s| ==> p(s[i])
  {
    if s != [] {
      FilterKeepsAllIff(s[1..], p);
      assert forall i :: 1 <= i < |s| ==> s[i] == s[1..][i - 1];
    }
  }

  /** No element is kept exactly when none of them satisfies `p`. */
  lemma FilterKeepsNoneIff<T>(s: seq<T>, p: T -> bool)
    ensures |Filter(s, p)| == 0 <==> forall i :: 0 <= i < |s| ==> !p(s[i])
  {
    if |Filter(s, p)| != 0 {
      var x := Filter(s, p)[0];
      assert x in Filter(s, p);
    }
  }

  predicate IsHard(syllableCount: int) {
    syllableCount >= 3
  }

  predicate IsLong(token: string) {
    |token| > 6
  }

  /** `hard_words`: the number of tokens with three or more syllables. */
  function HardWords(syllables: seq<int>): (n: nat)
    ensures n <= |syllables|
    ensures n == |set i | 0 <= i < |syllables| && IsHard(syllables[i])|
  {
    FilterLengthIsIndexCount(syllables, IsHard);
    assert Indices(syllables, IsHard) == set i | 0 <= i < |syllables| && IsHard(syllables[i]);
    |Filter(syllables, IsHard)|
  }

  /** `long_words`: the number of content tokens longer than six characters. */
  function LongWords(filteredTokens: seq<string>): (n: nat)
    ensures n <= |filteredTokens|
    ensures n == |set i | 0 <= i < |filteredTokens| && IsLong(filteredTokens[i])|
  {
    FilterLengthIsIndexCount(filteredTokens, IsLong);
    assert Indices(filteredTokens, IsLong) == set i | 0 <= i < |filteredTokens| && IsLong(filteredTokens[i]);
    |Filter(filteredTokens, IsLong)|
  }

  lemma HardWordsExtremes(syllables: seq<int>)
    ensures HardWords(syllables) == 0 <==> forall i :: 0 <= i < |syllables| ==> syllables[i] < 3
    ensures HardWords(syllables) == |syllables| <==> forall i :: 0 <= i < |syllables| ==> syllables[i] >= 3
  {
    FilterKeepsNoneIff(syllables, IsHard);
    FilterKeepsAllIff(syllables, IsHard);
  }

  lemma LongWordsExtremes(filteredTokens: seq<string>)
    ensures LongWords(filteredTokens) == 0 <==> forall i :: 0 <= i < |filteredTokens| ==> |filteredTokens[i]| <= 6
    ensures LongWords(filteredTokens) == |filteredTokens| <==> forall i :: 0 <= i < |filteredTokens| ==> |filteredTokens[i]| > 6
  {
    FilterKeepsNoneIff(filteredTokens, IsLong);
    FilterKeepsAllIff(filteredTokens, IsLong);
  }

  // ---------------------------------------------------------------------
  // The eight formulas
  // ---------------------------------------------------------------------

  /** Flesch reading ease: higher means easier to read. */
  function FleschReadingEase(doc: DocStats): (r: real)
    ensures doc.sentenceLengthMean >= 0.0 && doc.syllablesPerTokenMean >= 0.0 ==> r <= 206.835
  {
    206.835
    - 1.015 * doc.sentenceLengthMean
    - 84.6 * doc.syllablesPerTokenMean
  }

  /** Flesch-Kincaid grade: the school grade needed to read the text. */
  function FleschKincaidGrade(doc: DocStats): (r: real)
    ensures doc.sentenceLengthMean >= 0.0 && doc.syllablesPerTokenMean >= 0.0 ==> r >= -15.59
  {
    0.39 * doc.sentenceLengthMean
    + 11.8 * doc.syllablesPerTokenMean
    - 15.59
  }

  /** SMOG grade, with 0.0 as the value for documents of fewer than three
      sentences. */
  function Smog(doc: DocStats, hardWords: nat, sqrt: real -> real): (r: real)
    requires IsSquareRoot(sqrt)
    ensures doc.nSentences < 3 ==> r == 0.0
    ensures doc.nSentences >= 3 ==> r >= 3.1291
    ensures doc.nSentences >= 3 ==> (r == 3.1291 <==> hardWords == 0)
  {
    if doc.nSentences >= 3 then
      var x := 30.0 * (hardWords as real / doc.nSentences as real);
      assert x >= 0.0;
      assert sqrt(x) * sqrt(x) == x;
      1.043 * sqrt(x) + 3.1291
    else
      0.0
  }

  /** The share a / b of a part a of a positive whole b lies in [0, 1]. */
  lemma ShareBounds(a: nat, b: nat)
    requires 0 < b
    ensures 0.0 <= a as real / b as real
    ensures a as real / b as real * b as real == a as real
    ensures a <= b ==> a as real / b as real <= 1.0
  {
  }

  /** Gunning fog index; the source divides by the token count. */
  function GunningFog(doc: DocStats, hardWords: nat): (r: real)
    requires doc.nTokens != 0
    ensures r >= 0.4 * doc.sentenceLengthMean
    ensures hardWords <= doc.nTokens ==> r <= 0.4 * doc.sentenceLengthMean + 40.0
    ensures (r - 0.4 * doc.sentenceLengthMean) * doc.nTokens as real == 40.0 * hardWords as real
  {
    ShareBounds(hardWords, doc.nTokens);
    var percentHardWords := (hardWords as real / doc.nTokens as real) * 100.0;
    0.4 * (doc.sentenceLengthMean + percentHardWords)
  }

  /** Automated readability index. */
  function AutomatedReadabilityIndex(doc: DocStats): (r: real)
    ensures doc.tokenLengthMean >= 0.0 && doc.sentenceLengthMean >= 0.0 ==> r >= -21.43
  {
    4.71 * doc.tokenLengthMean
    + 0.5 * doc.sentenceLengthMean
    - 21.43
  }

  /** Coleman-Liau index; the source divides by the mean sentence length. */
  function ColemanLiauIndex(doc: DocStats): (r: real)
    requires doc.sentenceLengthMean != 0.0
    ensures doc.sentenceLengthMean > 0.0 ==> r <= 5.88 * doc.tokenLengthMean - 15.8
    ensures doc.sentenceLengthMean > 0.0 && doc.nSentences > 0 ==> r < 5.88 * doc.tokenLengthMean - 15.8
  {
    var l := doc.tokenLengthMean * 100.0;
    var s := (doc.nSentences as real / doc.sentenceLengthMean) * 100.0;
    0.0588 * l - 0.296 * s - 15.8
  }

  /** The Coleman-Liau index as the source's docstring describes it, with S
      the number of sentences per 100 words, 100·ns/nt. With sl the mean
      number of tokens per sentence this is the standard 5.88·tl − 29.6/sl
      − 15.8. */
  function ColemanLiauIndexPer100Words(doc: DocStats): (r: real)
    requires doc.nTokens != 0
    ensures Consistent(doc) ==> r == 5.88 * doc.tokenLengthMean - 29.6 / doc.sentenceLengthMean - 15.8
    ensures doc.nSentences <= doc.nTokens
        ==> 5.88 * doc.tokenLengthMean - 45.4 <= r <= 5.88 * doc.tokenLengthMean - 15.8
  {
    ShareBounds(doc.nSentences, doc.nTokens);
    var l := doc.tokenLengthMean * 100.0;
    var s := (doc.nSentences as real / doc.nTokens as real) * 100.0;
    SentencesPerWord(doc);
    0.0588 * l - 0.296 * s - 15.8
  }

  /** When sl is the mean number of tokens per sentence (sl · ns = nt),
      ns/nt is 1/sl. */
  lemma SentencesPerWord(doc: DocStats)
    requires doc.nTokens != 0
    ensures Consistent(doc) ==> doc.sentenceLengthMean != 0.0
    ensures Consistent(doc) ==> doc.nSentences as real / doc.nTokens as real == 1.0 / doc.sentenceLengthMean
    ensures Consistent(doc) ==>
      doc.nSentences as real / doc.sentenceLengthMean
        == doc.nSentences as real * (doc.nSentences as real / doc.nTokens as real)
  {
    if Consistent(doc) {
      var ns, nt, sl := doc.nSentences as real, doc.nTokens as real, doc.sentenceLengthMean;
      assert sl == nt / ns;
      assert ns / nt * sl == ns / nt * (nt / ns);
    }
  }

  /** The mean sentence length agrees with the two counts. */
  predicate Consistent(doc: DocStats) {
    doc.nSentences > 0 && doc.sentenceLengthMean * doc.nSentences as real == doc.nTokens as real
  }

  /** On a consistent document (sl · ns = nt) the source's sentence term is ns
      times the docstring's, so the source's index falls short of the
      docstring's by 29.6 · ns · (ns − 1) / nt: the two agree only for a
      single sentence. */
  lemma ColemanLiauSentenceTermScaled(doc: DocStats)
    requires doc.nTokens != 0 && Consistent(doc)
    ensures doc.sentenceLengthMean != 0.0
    ensures ColemanLiauIndexPer100Words(doc) - ColemanLiauIndex(doc)
         == 29.6 * (doc.nSentences * (doc.nSentences - 1)) as real / doc.nTokens as real
    ensures doc.nSentences > 1 ==> ColemanLiauIndex(doc) < ColemanLiauIndexPer100Words(doc)
  {
    SentencesPerWord(doc);
    var ns, nt := doc.nSentences as real, doc.nTokens as real;
    var q := ns / nt;
    assert ColemanLiauIndexPer100Words(doc) - ColemanLiauIndex(doc) == 29.6 * (ns * q - q);
    assert ns * q - q == (ns * ns - ns) / nt;
    assert (doc.nSentences * (doc.nSentences - 1)) as real == ns * ns - ns;
  }

  /** On the worked example the source gives 1.76 where the docstring's
      formula gives 10.64. */
  lemma ColemanLiauWorkedExampleGap(doc: DocStats)
    requires doc.sentenceLengthMean == 10.0 && doc.tokenLengthMean == 5.0
    requires doc.nSentences == 4 && doc.nTokens == 40
    ensures ColemanLiauIndex(doc) == 1.76
    ensures ColemanLiauIndexPer100Words(doc) == 10.64
  {
  }

  /** LIX; the source divides by the token count. */
  function Lix(doc: DocStats, longWords: nat): (r: real)
    requires doc.nTokens != 0
    ensures r >= doc.sentenceLengthMean
    ensures longWords <= doc.nTokens ==> r <= doc.sentenceLengthMean + 100.0
    ensures (r - doc.sentenceLengthMean) * doc.nTokens as real == 100.0 * longWords as real
  {
    ShareBounds(longWords, doc.nTokens);
    var percentLongWords := longWords as real / doc.nTokens as real * 100.0;
    doc.sentenceLengthMean + percentLongWords
  }

  /** RIX: long words per sentence; the source divides by the sentence count. */
  function Rix(doc: DocStats, longWords: nat): (r: real)
    requires doc.nSentences != 0
    ensures r >= 0.0
    ensures r * doc.nSentences as real == longWords as real
  {
    longWords as real / doc.nSentences as real
  }

  // ---------------------------------------------------------------------
  // The score mapping
  // ---------------------------------------------------------------------

  /** Whether evaluating the score under `key` divides by zero. */
  predicate RaisesZeroDivision(doc: DocStats, key: string) {
    if key == "gunning_fog" || key == "lix" then doc.nTokens == 0
    else if key == "coleman_liau_index" then doc.sentenceLengthMean == 0.0
    else if key == "rix" then doc.nSentences == 0
    else false
  }

  /** A score raises ZeroDivisionError exactly when its helper's divisor
      requirement fails. */
  lemma RaisesZeroDivisionIffHelperUndefined(doc: DocStats, hardWords: nat, longWords: nat)
    ensures RaisesZeroDivision(doc, "gunning_fog") <==> !GunningFog.requires(doc, hardWords)
    ensures RaisesZeroDivision(doc, "coleman_liau_index") <==> !ColemanLiauIndex.requires(doc)
    ensures RaisesZeroDivision(doc, "lix") <==> !Lix.requires(doc, longWords)
    ensures RaisesZeroDivision(doc, "rix") <==> !Rix.requires(doc, longWords)
  {
  }

  /** Which of the eight scores, by position in evaluation order, divides by
      zero on `doc`. */
  lemma RaisesByPosition(doc: DocStats)
    ensures |SCORE_ORDER| == 8
    ensures !RaisesZeroDivision(doc, SCORE_ORDER[0])
    ensures !RaisesZeroDivision(doc, SCORE_ORDER[1])
    ensures !RaisesZeroDivision(doc, SCORE_ORDER[2])
    ensures RaisesZeroDivision(doc, SCORE_ORDER[3]) == (doc.nTokens == 0)
    ensures !RaisesZeroDivision(doc, SCORE_ORDER[4])
    ensures RaisesZeroDivision(doc, SCORE_ORDER[5]) == (doc.sentenceLengthMean == 0.0)
    ensures RaisesZeroDivision(doc, SCORE_ORDER[6]) == (doc.nTokens == 0)
    ensures RaisesZeroDivision(doc, SCORE_ORDER[7]) == (doc.nSentences == 0)
  {
  }

  /** The dict literal that holds the eight scores, built once every divisor
      is known to be nonzero. */
  function Scores(doc: DocStats, hardWords: nat, longWords: nat, sqrt: real -> real): (m: map<string, real>)
    requires IsSquareRoot(sqrt)
    requires doc.nTokens != 0 && doc.sentenceLengthMean != 0.0 && doc.nSentences != 0
    ensures m.Keys == SCORE_KEYS && |m| == 8
  {
    ScoreKeysCount();
    map[
      "flesch_reading_ease" := FleschReadingEase(doc),
      "flesch_kincaid_grade" := FleschKincaidGrade(doc),
      "smog" := Smog(doc, hardWords, sqrt),
      "gunning_fog" := GunningFog(doc, hardWords),
      "automated_readability_index" := AutomatedReadabilityIndex(doc),
      "coleman_liau_index" := ColemanLiauIndex(doc),
      "lix" := Lix(doc, longWords),
      "rix" := Rix(doc, longWords)
    ]
  }

  /** The mapping of the eight scores, or the ZeroDivisionError raised by the
      first score, in evaluation order, whose divisor is zero. */
  function Readability(doc: DocStats, sqrt: real -> real): (r: Result<map<string, real>>)
    requires IsSquareRoot(sqrt)
    ensures r.Ok? <==> doc.nTokens != 0 && doc.sentenceLengthMean != 0.0 && doc.nSentences != 0
    ensures r.Ok? ==> r.value.Keys == SCORE_KEYS && |r.value| == 8
    ensures r.Err? ==>
      exists k :: 0 <= k < |SCORE_ORDER| && SCORE_ORDER[k] == r.error.metric
        && RaisesZeroDivision(doc, SCORE_ORDER[k])
        && forall j :: 0 <= j < k ==> !RaisesZeroDivision(doc, SCORE_ORDER[j])
  {
    var hardWords := HardWords(doc.syllables);
    var longWords := LongWords(doc.filteredTokens);
    RaisesByPosition(doc);
    if doc.nTokens == 0 then
      assert SCORE_ORDER[3] == "gunning_fog";
      Err(ZeroDivisionError("gunning_fog"))
    else if doc.sentenceLengthMean == 0.0 then
      assert SCORE_ORDER[5] == "coleman_liau_index";
      Err(ZeroDivisionError("coleman_liau_index"))
    else if doc.nSentences == 0 then
      assert SCORE_ORDER[7] == "rix";
      Err(ZeroDivisionError("rix"))
    else
      Ok(Scores(doc, hardWords, longWords, sqrt))
  }

  // ---------------------------------------------------------------------
  // Properties of the scores
  // ---------------------------------------------------------------------

  /** Longer sentences or more syllables per token make a text harder:
      lower reading ease and higher Flesch-Kincaid grade. */
  lemma FleschMonotone(d1: DocStats, d2: DocStats)
    requires d1.sentenceLengthMean <= d2.sentenceLengthMean
    requires d1.syllablesPerTokenMean <= d2.syllablesPerTokenMean
    requires d1.sentenceLengthMean < d2.sentenceLengthMean
          || d1.syllablesPerTokenMean < d2.syllablesPerTokenMean
    ensures FleschReadingEase(d2) < FleschReadingEase(d1)
    ensures FleschKincaidGrade(d1) < FleschKincaidGrade(d2)
  {
  }

  /** Longer tokens or longer sentences raise the automated readability index. */
  lemma AutomatedReadabilityIndexMonotone(d1: DocStats, d2: DocStats)
    requires d1.tokenLengthMean <= d2.tokenLengthMean
    requires d1.sentenceLengthMean <= d2.sentenceLengthMean
    requires d1.tokenLengthMean < d2.tokenLengthMean
          || d1.sentenceLengthMean < d2.sentenceLengthMean
    ensures AutomatedReadabilityIndex(d1) < AutomatedReadabilityIndex(d2)
  {
  }

  /** For positive n, n / b < n / a whenever 0 < a < b. */
  lemma QuotientDecreasing(n: real, a: real, b: real)
    requires 0.0 < n && 0.0 < a < b
    ensures n / b < n / a
  {
  }

  /** The Coleman-Liau index rises with the mean token length, and, for
      positive sentence counts and lengths, with the mean sentence length. */
  lemma ColemanLiauIndexMonotone(d1: DocStats, d2: DocStats)
    requires d1.nSentences == d2.nSentences
    requires 0.0 < d1.sentenceLengthMean <= d2.sentenceLengthMean
    requires d1.tokenLengthMean <= d2.tokenLengthMean
    requires d1.tokenLengthMean < d2.tokenLengthMean
          || (d1.nSentences > 0 && d1.sentenceLengthMean < d2.sentenceLengthMean)
    ensures ColemanLiauIndex(d1) < ColemanLiauIndex(d2)
  {
    var n := d1.nSentences as real;
    if d1.nSentences > 0 && d1.sentenceLengthMean < d2.sentenceLengthMean {
      QuotientDecreasing(n, d1.sentenceLengthMean, d2.sentenceLengthMean);
    } else if d1.nSentences == 0 {
      assert n / d1.sentenceLengthMean == 0.0 == n / d2.sentenceLengthMean;
    }
  }

  /** With at least three sentences, more hard words give a strictly higher
      SMOG grade. */
  lemma SmogIncreasingInHardWords(doc: DocStats, h1: nat, h2: nat, sqrt: real -> real)
    requires IsSquareRoot(sqrt)
    requires doc.nSentences >= 3 && h1 < h2
    ensures Smog(doc, h1, sqrt) < Smog(doc, h2, sqrt)
  {
    var n := doc.nSentences as real;
    assert h1 as real / n < h2 as real / n;
    SqrtStrictlyIncreasing(sqrt, 30.0 * (h1 as real / n), 30.0 * (h2 as real / n));
  }

  /** With at least three sentences and some hard words, spreading the same
      hard words over more sentences gives a strictly lower SMOG grade. */
  lemma SmogDecreasingInSentences(d1: DocStats, d2: DocStats, hardWords: nat, sqrt: real -> real)
    requires IsSquareRoot(sqrt)
    requires 3 <= d1.nSentences < d2.nSentences && hardWords > 0
    ensures Smog(d2, hardWords, sqrt) < Smog(d1, hardWords, sqrt)
  {
    var h := hardWords as real;
    QuotientDecreasing(h, d1.nSentences as real, d2.nSentences as real);
    SqrtStrictlyIncreasing(sqrt, 30.0 * (h / d2.nSentences as real), 30.0 * (h / d1.nSentences as real));
  }

  /** The mapping is produced exactly when none of the eight scores divides
      by zero. */
  lemma ReadabilityOkIffNoDivisionByZero(doc: DocStats, sqrt: real -> real)
    requires IsSquareRoot(sqrt)
    ensures Readability(doc, sqrt).Ok?
        <==> forall k :: 0 <= k < |SCORE_ORDER| ==> !RaisesZeroDivision(doc, SCORE_ORDER[k])
  {
    RaisesByPosition(doc);
  }

  /** A document without tokens raises in the first formula that divides by
      the token count, Gunning fog, instead of yielding a non-finite score. */
  lemma NoTokensRaises(doc: DocStats, sqrt: real -> real)
    requires IsSquareRoot(sqrt)
    requires doc.nTokens == 0
    ensures Readability(doc, sqrt) == Err(ZeroDivisionError("gunning_fog"))
  {
  }

  /** Every entry of a successful score mapping is the corresponding formula
      applied to the document and its hard and long word counts. */
  lemma ReadabilityEntries(doc: DocStats, sqrt: real -> real)
    requires IsSquareRoot(sqrt)
    requires Readability(doc, sqrt).Ok?
    ensures var scores, hw, lw := Readability(doc, sqrt).value, HardWords(doc.syllables), LongWords(doc.filteredTokens);
      && scores["flesch_reading_ease"] == FleschReadingEase(doc)
      && scores["flesch_kincaid_grade"] == FleschKincaidGrade(doc)
      && scores["smog"] == Smog(doc, hw, sqrt)
      && scores["gunning_fog"] == GunningFog(doc, hw)
      && scores["automated_readability_index"] == AutomatedReadabilityIndex(doc)
      && scores["coleman_liau_index"] == ColemanLiauIndex(doc)
      && scores["lix"] == Lix(doc, lw)
      && scores["rix"] == Rix(doc, lw)
  {
  }

  /** The bounds that hold of every successful score mapping. */
  lemma ReadabilityBounds(doc: DocStats, sqrt: real -> real)
    requires IsSquareRoot(sqrt)
    requires Readability(doc, sqrt).Ok?
    ensures var scores := Readability(doc, sqrt).value;
      && (doc.nSentences < 3 ==> scores["smog"] == 0.0)
      && (doc.nSentences >= 3 ==> scores["smog"] >= 3.1291)
      && scores["gunning_fog"] >= 0.4 * doc.sentenceLengthMean
      && scores["lix"] >= doc.sentenceLengthMean
      && scores["rix"] >= 0.0
      && (|doc.filteredTokens| <= doc.nTokens ==> scores["lix"] <= doc.sentenceLengthMean + 100.0)
      && (|doc.syllables| <= doc.nTokens ==> scores["gunning_fog"] <= 0.4 * doc.sentenceLengthMean + 40.0)
  {
    ReadabilityEntries(doc, sqrt);
  }

  /** The worked example: mean sentence length 10, 1.5 syllables per token,
      mean token length 5, 4 sentences, 40 tokens, 4 hard words and 6 long
      words. */
  // The two lists are not one entry per token: they are chosen only so that
  // hard_words is 4 and long_words is 6, the counts of the example.
  lemma WorkedExample(doc: DocStats, sqrt: real -> real)
    requires IsSquareRoot(sqrt)
    requires doc == DocStats(10.0, 5.0, 1.5, 4, 40, [3, 1, 4, 2, 3, 5],
                             ["sentence", "readable", "a", "syllables", "counted", "the", "measure", "formula"])
    ensures Readability(doc, sqrt) == Ok(map[
        "flesch_reading_ease" := 69.785,
        "flesch_kincaid_grade" := 6.01,
        "smog" := 1.043 * sqrt(30.0) + 3.1291,
        "gunning_fog" := 8.0,
        "automated_readability_index" := 7.12,
        "coleman_liau_index" := 1.76,
        "lix" := 25.0,
        "rix" := 1.5
      ])
  {
    WorkedExampleHardWords(doc.syllables);
    WorkedExampleLongWords(doc.filteredTokens);
    assert Readability(doc, sqrt) == Ok(Scores(doc, 4, 6, sqrt));
    WorkedExampleScores(doc, sqrt);
  }

  lemma WorkedExampleScores(doc: DocStats, sqrt: real -> real)
    requires IsSquareRoot(sqrt)
    requires doc.sentenceLengthMean == 10.0 && doc.tokenLengthMean == 5.0
    requires doc.syllablesPerTokenMean == 1.5 && doc.nSentences == 4 && doc.nTokens == 40
    ensures Scores(doc, 4, 6, sqrt) == map[
        "flesch_reading_ease" := 69.785,
        "flesch_kincaid_grade" := 6.01,
        "smog" := 1.043 * sqrt(30.0) + 3.1291,
        "gunning_fog" := 8.0,
        "automated_readability_index" := 7.12,
        "coleman_liau_index" := 1.76,
        "lix" := 25.0,
        "rix" := 1.5
      ]
  {
    WorkedExampleFormulas(doc, sqrt);
  }

  lemma WorkedExampleFormulas(doc: DocStats, sqrt: real -> real)
    requires IsSquareRoot(sqrt)
    requires doc.sentenceLengthMean == 10.0 && doc.tokenLengthMean == 5.0
    requires doc.syllablesPerTokenMean == 1.5 && doc.nSentences == 4 && doc.nTokens == 40
    ensures FleschReadingEase(doc) == 69.785
    ensures FleschKincaidGrade(doc) == 6.01
    ensures Smog(doc, 4, sqrt) == 1.043 * sqrt(30.0) + 3.1291
    ensures GunningFog(doc, 4) == 8.0
    ensures AutomatedReadabilityIndex(doc) == 7.12
    ensures ColemanLiauIndex(doc) == 1.76
    ensures Lix(doc, 6) == 25.0
    ensures Rix(doc, 6) == 1.5
  {
  }

  lemma WorkedExampleHardWords(s: seq<int>)
    requires s == [3, 1, 4, 2, 3, 5]
    ensures HardWords(s) == 4
  {
    assert s[1..] == [1, 4, 2, 3, 5];
    assert s[2..] == [4, 2, 3, 5];
    assert s[3..] == [2, 3, 5];
    assert s[4..] == [3, 5];
    assert s[5..] == [5];
    assert s[6..] == [];
    assert |Filter(s[6..], IsHard)| == 0;
    assert |Filter(s[5..], IsHard)| == 1;
    assert |Filter(s[4..], IsHard)| == 2;
    assert |Filter(s[3..], IsHard)| == 2;
    assert |Filter(s[2..], IsHard)| == 3;
    assert |Filter(s[1..], IsHard)| == 3;
  }

  lemma WorkedExampleLongWords(t: seq<string>)
    requires t == ["sentence", "readable", "a", "syllables", "counted", "the", "measure", "formula"]
    ensures LongWords(t) == 6
  {
    assert t[1..] == ["readable", "a", "syllables", "counted", "the", "measure", "formula"];
    assert t[2..] == ["a", "syllables", "counted", "the", "measure", "formula"];
    assert t[3..] == ["syllables", "counted", "the", "measure", "formula"];
    assert t[4..] == ["counted", "the", "measure", "formula"];
    assert t[5..] == ["the", "measure", "formula"];
    assert t[6..] == ["measure", "formula"];
    assert t[7..] == ["formula"];
    assert t[8..] == [];
    assert |Filter(t[8..], IsLong)| == 0;
    assert |Filter(t[7..], IsLong)| == 1;
    assert |Filter(t[6..], IsLong)| == 2;
    assert |Filter(t[5..], IsLong)| == 2;
    assert |Filter(t[4..], IsLong)| == 3;
    assert |Filter(t[3..], IsLong)| == 4;
    assert |Filter(t[2..], IsLong)| == 4;
    assert |Filter(t[1..], IsLong)| == 5;
  }
}
