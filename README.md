# Readability scores of spacy-textdescriptives, in Dafny

This project models the readability component of spacy-textdescriptives
(`spacy-textdescriptives/components/readability.py`). Given a document's
precomputed statistics, the component returns a mapping of eight named
scores:

- Flesch reading ease
- Flesch–Kincaid grade
- SMOG
- Gunning fog
- automated readability index
- Coleman–Liau index
- LIX
- RIX

The model, in `readability.dfy`, is one module, `Readability`:

- `DocStats` holds the statistics that upstream pipeline components
  provide: mean sentence length, mean token length, syllables per token,
  sentence and token counts, the per-token syllable list and the filtered
  token list.
- `HardWords` and `LongWords` are the two list comprehensions that
  `readability` counts. Both are built from one generic `Filter`.
- There is one function per formula helper.
- `Readability` builds the eight-key mapping, or returns the
  `ZeroDivisionError` that the Python code raises.

Floating-point values are modelled as exact reals. The square root that the
source writes as `** 0.5` is a parameter `sqrt`. Callers must supply a
function that satisfies `IsSquareRoot`: it maps 0 to 0 and maps every
non-negative x to a non-negative number whose square is x.

Division by zero follows the code: Python raises `ZeroDivisionError`, so Gunning
fog, Coleman–Liau, LIX and RIX are defined only for a nonzero divisor.
`Readability` returns `Err(ZeroDivisionError(key))`, where `key` is the first
score, in the dict literal's evaluation order, whose divisor is zero.
IEEE-754 division would give infinity or NaN here, but Python raises
`ZeroDivisionError` for both int and float division by zero, so the component
does not always return a mapping (`NoTokensRaises`).

The `_smog` docstring (readability.py:64) says SMOG will not work with fewer
than 4 sentences, but the guard at line 66 is `>= 3`; the model follows the
guard, so 3 sentences already give a SMOG grade.

The `_coleman_liau_index` docstring (readability.py:94-95) describes S as the
average number of sentences per 100 words, 100·ns/nt. Line 99 computes
100·ns/sl instead, which is ns times that value when sl is the mean sentence
length. `ColemanLiauIndex` and `Readability` follow line 99, so the
coleman_liau_index score is not the standard Coleman–Liau index. The
docstring's formula is modelled beside it as `ColemanLiauIndexPer100Words`
(see "## Findings").

## Model

| member | source | states |
|---|---|---|
| `Readability.Filter` | spacy-textdescriptives/components/readability.py:23-24 | The list comprehension keeps exactly the elements that satisfy the test. It is no longer than its input. |
| `Readability.FilterLengthIsIndexCount` | spacy-textdescriptives/components/readability.py:23-24 | `len` of the comprehension equals the number of positions whose element satisfies the test. |
| `Readability.FilterKeepsAllIff` | spacy-textdescriptives/components/readability.py:23-24 | The comprehension keeps every element if and only if every element satisfies the test. |
| `Readability.FilterKeepsNoneIff` | spacy-textdescriptives/components/readability.py:23-24 | The comprehension is empty if and only if no element satisfies the test. |
| `Readability.HardWords` | spacy-textdescriptives/components/readability.py:23 | `hard_words` is the number of syllable entries that are at least 3, so it lies between 0 and the list's length. |
| `Readability.LongWords` | spacy-textdescriptives/components/readability.py:24 | `long_words` is the number of filtered tokens longer than 6 characters, so it lies between 0 and the number of filtered tokens. |
| `Readability.HardWordsExtremes` | spacy-textdescriptives/components/readability.py:23 | `hard_words` is 0 if and only if every entry is below 3. It equals the list's length if and only if every entry is at least 3. |
| `Readability.LongWordsExtremes` | spacy-textdescriptives/components/readability.py:24 | `long_words` is 0 if and only if no token is longer than 6 characters. It equals the number of filtered tokens if and only if every filtered token is longer than 6 characters. |
| `Readability.FleschReadingEase` | spacy-textdescriptives/components/readability.py:37-48 | The exact closed form 206.835 − 1.015·sl − 84.6·spt. For non-negative means it is at most 206.835. Its monotonicity is stated in `FleschMonotone`. |
| `Readability.FleschKincaidGrade` | spacy-textdescriptives/components/readability.py:50-59 | The exact closed form 0.39·sl + 11.8·spt − 15.59. For non-negative means it is at least −15.59. Its monotonicity is stated in `FleschMonotone`. |
| `Readability.FleschMonotone` | spacy-textdescriptives/components/readability.py:37-59 | A larger mean sentence length or a larger syllables-per-token mean, with the other not smaller, gives a strictly lower Flesch reading ease and a strictly higher Flesch–Kincaid grade. |
| `Readability.Smog` | spacy-textdescriptives/components/readability.py:61-70 | 0.0 for fewer than 3 sentences, whatever `hard_words` is. Otherwise the value is at least 3.1291, with equality exactly when `hard_words` is 0. |
| `Readability.SqrtStrictlyIncreasing` | spacy-textdescriptives/components/readability.py:67 | The square root used for `** 0.5` is strictly increasing on the non-negative reals. |
| `Readability.SmogIncreasingInHardWords` | spacy-textdescriptives/components/readability.py:66-67 | With at least 3 sentences, more hard words give a strictly higher SMOG grade. |
| `Readability.SmogDecreasingInSentences` | spacy-textdescriptives/components/readability.py:66-67 | With at least 3 sentences and some hard words, more sentences give a strictly lower SMOG grade. |
| `Readability.GunningFog` | spacy-textdescriptives/components/readability.py:72-79 | Defined only for a nonzero token count. It is at least 0.4·sl. It is at most 0.4·sl + 40 when `hard_words` ≤ the token count. `hard_words` can be recovered from it as (fog − 0.4·sl)·nt / 40. |
| `Readability.AutomatedReadabilityIndex` | spacy-textdescriptives/components/readability.py:81-90 | The exact closed form 4.71·tl + 0.5·sl − 21.43. For non-negative means it is at least −21.43. Its monotonicity is stated in `AutomatedReadabilityIndexMonotone`. |
| `Readability.AutomatedReadabilityIndexMonotone` | spacy-textdescriptives/components/readability.py:81-90 | A larger mean token length or mean sentence length, with the other not smaller, gives a strictly higher index. |
| `Readability.ColemanLiauIndex` | spacy-textdescriptives/components/readability.py:92-100 | The exact closed form 0.0588·(100·tl) − 0.296·(100·ns/sl) − 15.8, defined only when the mean sentence length is nonzero. For a positive sentence length it is at most 5.88·tl − 15.8, and strictly below that when there are sentences. Its monotonicity is stated in `ColemanLiauIndexMonotone`. |
| `Readability.ColemanLiauIndexPer100Words` | spacy-textdescriptives/components/readability.py:92-96 | The docstring's Coleman–Liau index, with S = 100·ns/nt. It is defined only for a nonzero token count. When sl·ns = nt it equals the standard 5.88·tl − 29.6/sl − 15.8. When ns ≤ nt it lies between 5.88·tl − 45.4 and 5.88·tl − 15.8. |
| `Readability.ColemanLiauSentenceTermScaled` | spacy-textdescriptives/components/readability.py:94-99 | When sl·ns = nt, the code's index is below the docstring's by exactly 29.6·ns·(ns − 1)/nt. So the two differ for every document with more than one sentence. |
| `Readability.ColemanLiauWorkedExampleGap` | spacy-textdescriptives/components/readability.py:94-99 | For sl 10, tl 5, 4 sentences and 40 tokens, the code gives 1.76 and the docstring's formula gives 10.64. |
| `Readability.ColemanLiauIndexMonotone` | spacy-textdescriptives/components/readability.py:92-100 | The index is defined only for a nonzero mean sentence length. With the sentence count fixed and a positive sentence length, it rises strictly with the mean token length. With a positive sentence count, it also rises strictly with the mean sentence length. |
| `Readability.Lix` | spacy-textdescriptives/components/readability.py:102-107 | Defined only for a nonzero token count. It is at least sl. It is at most sl + 100 when `long_words` ≤ the token count. `long_words` can be recovered from it as (LIX − sl)·nt / 100. |
| `Readability.Rix` | spacy-textdescriptives/components/readability.py:109-111 | Defined only for a nonzero sentence count. It is non-negative, and RIX times the sentence count gives back `long_words`. |
| `Readability.RaisesZeroDivisionIffHelperUndefined` | spacy-textdescriptives/components/readability.py:78-111 | The gunning_fog, coleman_liau_index, lix and rix entries divide by zero exactly when the precondition of `GunningFog`, `ColemanLiauIndex`, `Lix` or `Rix` fails. Those are the divisions at lines 78, 99, 106 and 111. |
| `Readability.RaisesByPosition` | spacy-textdescriptives/components/readability.py:26-35 | In evaluation order, only entries 4, 6, 7 and 8 of the dict literal can divide by zero. They divide by the token count, the mean sentence length, the token count and the sentence count. |
| `Readability.ScoreKeysCount` | spacy-textdescriptives/components/readability.py:26-35 | The eight keys of the dict literal are distinct. |
| `Readability.Scores` | spacy-textdescriptives/components/readability.py:26-35 | The dict literal has exactly the eight keys flesch_reading_ease, flesch_kincaid_grade, smog, gunning_fog, automated_readability_index, coleman_liau_index, lix and rix. |
| `Readability.Readability` | spacy-textdescriptives/components/readability.py:21-35 | A mapping is returned if and only if the token count, the mean sentence length and the sentence count are all nonzero, and it has exactly the eight keys. Otherwise the error names the first score, in evaluation order, that divides by zero. |
| `Readability.ReadabilityOkIffNoDivisionByZero` | spacy-textdescriptives/components/readability.py:26-35 | A mapping is returned if and only if none of the eight entries divides by zero. |
| `Readability.NoTokensRaises` | spacy-textdescriptives/components/readability.py:30 | A document without tokens raises `ZeroDivisionError` in Gunning fog, the first score that divides by the token count. |
| `Readability.ReadabilityEntries` | spacy-textdescriptives/components/readability.py:26-35 | Each key of a returned mapping holds its own formula, applied to the document and to the hard-word or long-word count. |
| `Readability.ReadabilityBounds` | spacy-textdescriptives/components/readability.py:26-35 | In every returned mapping, smog is 0.0 below 3 sentences and at least 3.1291 otherwise. gunning_fog is at least 0.4·sl, lix is at least sl, and rix is non-negative. Upper bounds on lix and gunning_fog hold when the lists are no longer than the token count. |
| `Readability.WorkedExample` | spacy-textdescriptives/components/readability.py:21-35 | Take sl 10, 1.5 syllables per token, tl 5, 4 sentences, 40 tokens, 4 hard words and 6 long words. The mapping is then 69.785, 6.01, 1.043·sqrt(30) + 3.1291, 8.0, 7.12, 1.76, 25.0 and 1.5. |
| `Readability.WorkedExampleFormulas` | spacy-textdescriptives/components/readability.py:37-111 | The eight formulas give the worked example's values. |

## Findings

| source | as written | input that shows it | evidently intended | confidence | as-written member | corrected member |
|---|---|---|---|---|---|---|
| spacy-textdescriptives/components/readability.py:94-99 | S = (n_sentences / sentence_length_mean)·100, which is ns times the sentences per 100 words | sl 10, tl 5, 4 sentences, 40 tokens: 1.76 in place of 10.64 | S = n_sentences / n_tokens·100, as the docstring says | high; not executed | `Readability.ColemanLiauSentenceTermScaled` (about `ColemanLiauIndex`) | `Readability.ColemanLiauIndexPer100Words` |

`Readability` keeps the as-written `ColemanLiauIndex`, because it models the
mapping that the program actually returns. `ColemanLiauIndexPer100Words` is
the evidently intended index, with its standard closed form proved.

## Left out

- The spaCy integration is not modelled, because it is registration with a library outside this model. This covers the `@Language.factory` function (lines 6-8), the `Doc.has_extension`/`Doc.set_extension` registration in `__init__` (lines 14-15) and `__call__` (lines 17-19).
- The upstream statistics are inputs; how they are computed is not part of this model. These are `doc._.sentence_length`, `doc._.token_length`, `doc._.syllables`, `doc._._n_sentences`, `doc._._n_tokens`, `doc._._n_syllables` and `doc._._filtered_tokens`. The two counts are `nat`, because they are lengths. Nothing ties the list lengths to `n_tokens`, so the upper bounds in `ReadabilityBounds` assume it explicitly.
- IEEE-754 behaviour is not modelled: rounding, infinity and NaN. Every score is the exact real value that the floating-point result approximates.
- Smog: the contract is stated for any exact square root, not for the float `** 0.5`, so no numeric value such as ≈ 8.842 is proved.
- `setup.py` is packaging metadata and file reads, with no logic to model.
