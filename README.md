# SMML password-strength estimator in Dafny

This project models the `SMMLEstimator` class of `lib_SMML.py`. The class is a
password-strength estimator built on unigram and bigram counts, kept in a
separate bucket for each password length. The model covers:

- **Corpus-line parsing.** `line.strip().split()`, then the
  "count password" or "password" rule. This is `Corpus.ParseLine`.
- **Training.** `train` adds the weighted unigram and bigram counts of every
  entry to `databases[len]`, and `len * weight` to `total_characters[len]`.
- **Scoring.** `calculate_score` is the rounded sum of `-log2(num/den)`, one
  ratio term for the first two characters and one for each later adjacent
  pair. The first term is `db[p[0:2]] / total`, or `1 / total` when that
  gram is missing. Each later term falls back from the bigram ratio to
  `1 / db[p[i]]`, then to `1 / total`.
- **Calibration.** `compute_thresholds` returns from an untrained estimator
  without changing it. Otherwise it scores every non-blank corpus line and sets the
  thresholds to `round(mean + 2 sd, 3)` and `round(mean + 3 sd, 3)`, where
  the mean and standard deviation are weighted by the line counts.
- **Labels.** `get_label` gives 0 (weak), 1 (normal) or 2 (strong).

## Structure

**Modules:**

- `Wrappers`: the `Option` and `Result` types.
- `Corpus`: the line parser; whitespace is Python's `str.isspace` set.
- `Frequency`: the tables as a value and training as functions over it, with
  these properties:
  - the effect of one entry;
  - training on A then B is training on A ++ B;
  - counts are additive;
  - training twice doubles the tables;
  - the table invariants (below).
- `Scoring`: the ratio terms of a password and the score.
- `Calibration`: the weighted statistics, the calibration pass and the label.
- `Estimator`: the class `SMMLEstimator`. Its fields are `databases`,
  `totalCharacters`, the two optional thresholds and `isTrained`. Its methods
  update these fields in place with the loops of the source, and each
  method's postcondition ties it to the functions above.
- `Examples`: the "2 abab" / "cdcd" corpus and a zero-weight corpus, worked
  through.

**How the source maps into the model:**

- **Floating point.** `-log2`, `sqrt` and `round(., 3)` are not computed.
  They are the fields of a `Numerics` value the caller passes in.
  `Scoring.Sane` lists the only facts the lemmas assume about them:
  - `-log2` is non-negative on (0, 1];
  - `round` is monotone and keeps 0;
  - `sqrt` is non-negative and keeps 0.
- **Weighted mean and variance.** These are computed exactly over the reals.
- **Python exceptions.** They become `Err` values:
  - the `TypeError` of `get_label` comparing a score with a missing `thre_str` is `Incomparable`; it needs `thre_nor` set without `thre_str`, which the estimator's methods never leave behind;
  - `ZeroDivisionError` at lines 99 and 102 (a unigram count of 0) is
    `ZeroDivision`; line 87 cannot divide by zero, because line 76 has
    already returned when the total is 0;
  - `math.log2(0)` at lines 88 and 100 (a count of 0) is `MathDomain`;
  - numpy's zero-weight-sum error is `ZeroWeights`;
  - the `ValueError` of `get_label` is `NoThresholds`.
- **Table invariants.** `Frequency.Valid` holds these:
  - every key is one or two characters;
  - the unigram counts of a bucket sum to its total;
  - every bigram's count is at most its first character's count;
  - the two maps have the same lengths.

  `Frequency.Positive` says every count and total is at least 1.

## Model

| member | source | states |
|---|---|---|
| Corpus.ParseLine | lib_SMML.py:36-46 | a parsed line always has a non-empty password |
| Corpus.ParseLineBlank | lib_SMML.py:36-38 | a line is skipped exactly when it is all whitespace |
| Corpus.ParseFormatLine | lib_SMML.py:41-43 | a "count password" line, with the password already in split-and-joined form, parses to that count and password |
| Corpus.ParseBarePassword | lib_SMML.py:44-46 | a single-word line, a lone numeral included, is that password with weight 1 |
| Corpus.SplitJoin | lib_SMML.py:43 | splitting tokens joined by single spaces gives the tokens back |
| Corpus.SplitSpec | lib_SMML.py:36 | `split()` yields whitespace-free non-empty tokens, and no tokens exactly for a blank string |
| Corpus.SplitSpaceFront | lib_SMML.py:36 | leading whitespace of any length does not change the split |
| Corpus.SplitTokenFront | lib_SMML.py:36 | a token followed by a non-empty whitespace run is split off unchanged and the run is dropped, so the tokens are the maximal runs of non-whitespace, in order |
| Corpus.StripSpec | lib_SMML.py:36 | `strip()` is a slice `s[i..j]` of the line with all-whitespace text before and after it; it is empty exactly for a blank line, and otherwise has no whitespace at either end |
| Corpus.StripPadded | lib_SMML.py:36-46 | surrounding whitespace of any length is exactly what `strip()` removes; the text between is kept as is |
| Corpus.SpacedSplit | lib_SMML.py:36 | `split()` of tokens with any non-empty whitespace runs between them is exactly those tokens, in order |
| Corpus.ParseCountedWords | lib_SMML.py:36-43 | a count followed by any number of words, with any whitespace around and between them, parses to that count and the words joined by single spaces |
| Corpus.ParseUncountedWords | lib_SMML.py:36-46 | one word, or several whose first is not a numeral, with any whitespace around and between them, parse to weight 1 and the stripped line with its inner whitespace kept |
| Corpus.ParseCountedLine | lib_SMML.py:36-43 | a count and two words with any whitespace around and between them parse to the count and the two words joined by one space |
| Corpus.ParseUncountedLine | lib_SMML.py:36-46 | two words without a leading count parse to weight 1 and the whole stripped line, the inner whitespace kept |
| Corpus.NumeralValue | lib_SMML.py:42 | `int()` of the decimal numeral of w is w |
| Estimator.SMMLEstimator.constructor | lib_SMML.py:14-24 | empty tables, no thresholds (so they are paired), not trained |
| Estimator.SMMLEstimator.Train | lib_SMML.py:35-62 | the new tables are `TrainLines` of the old tables and the lines; the estimator is trained; the thresholds are unchanged, so paired thresholds stay paired |
| Estimator.SMMLEstimator.AddEntry | lib_SMML.py:48-60 | one entry's update of both tables (nested loop over positions) equals `TrainEntry`; nothing else changes |
| Frequency.TrainLinesSnoc | lib_SMML.py:35-38 | one more line either is skipped (blank) or trains one more entry |
| Frequency.TrainEntryEffect | lib_SMML.py:48-60 | adds `L*w` to total L and `w` per occurrence to each gram of bucket L; other lengths, totals and keys are unchanged |
| Frequency.AddPrefixCounts | lib_SMML.py:53-60 | after positions 0..n-1 each gram's count rose by w times its occurrences, and only grams that occur gain a key |
| Frequency.TrainEntriesCounts | lib_SMML.py:48-60 | over a corpus, every count and total is the old value plus the weighted occurrences; keys appear exactly for mentioned grams and lengths |
| Frequency.TrainSequentially | lib_SMML.py:35-62 | training on A and then on B equals training on A ++ B |
| Frequency.TrainAdditive | lib_SMML.py:50-60 | from empty tables, the counts, totals and key sets for A ++ B are the sums and unions of those for A and for B |
| Frequency.TrainTwiceDoubles | lib_SMML.py:50-60 | training a fresh estimator twice on a corpus doubles every count and every total |
| Frequency.ParsedConcat | lib_SMML.py:35-38 | the entries of A ++ B are those of A followed by those of B |
| Frequency.TrainEntryKeepsValid | lib_SMML.py:50-60 | one entry keeps the table invariants (gram lengths, unigram sum = total, bigram <= leading unigram) |
| Frequency.TrainEntryKeepsPositive | lib_SMML.py:50-60 | with weight >= 1 every count and total stays at least 1 |
| Frequency.TrainLinesKeepsValid | lib_SMML.py:35-62 | training any corpus on tables that satisfy the invariants keeps them |
| Frequency.TrainedTablesValid | lib_SMML.py:35-62 | after training from empty tables the invariants hold, and with positive weights every count is at least 1 |
| Frequency.UnigramAtMostTotal | lib_SMML.py:50-55 | in a well-formed bucket no unigram count exceeds the total |
| Estimator.SMMLEstimator.CalculateScore | lib_SMML.py:69-106 | the loop returns exactly `Score` of the current tables (0.0 for an unseen length or zero total, else the rounded surprisal sum or the first error); it modifies nothing |
| Scoring.SumTermsAgrees | lib_SMML.py:82-104 | the running `strength` after m steps is the surprisal sum of the first m terms |
| Scoring.ScoreByPlan | lib_SMML.py:74-106 | the score is 0.0 for an unseen length, else the rounded sum over the term list |
| Scoring.SumTermsErrorSticks | lib_SMML.py:88-104 | an error raised at some term is the result of the whole score |
| Scoring.EveryPairLookedUp | lib_SMML.py:84-104 | a password of length L >= 2 gets L-1 terms; term k uses `db[p[k:k+2]]` when present, else 1, as its numerator |
| Scoring.TermsInUnitInterval | lib_SMML.py:86-104 | under the invariants with positive counts, every term is a ratio in (0, 1] |
| Scoring.SumPrefixDefined | lib_SMML.py:88-104 | terms with non-zero numerator and denominator never raise, and with sane numerics they sum to a non-negative value |
| Scoring.ScoreOfTrainedTables | lib_SMML.py:69-106 | against tables trained with positive weights a score never raises, and with sane numerics it is >= 0 |
| Scoring.ScoreIgnoresOtherLengths | lib_SMML.py:74-80 | training on passwords of other lengths leaves a password's score unchanged |
| Scoring.ScoreUnseenLength | lib_SMML.py:76-77 | a password whose length was never trained scores 0.0 |
| Calibration.WeightedThresholds | lib_SMML.py:139-147 | no thresholds (numpy raises) exactly when the weights sum to zero, otherwise the two thresholds |
| Calibration.MeanWithinBounds | lib_SMML.py:142 | the weighted mean lies between any lower and upper bound on the values |
| Calibration.VarianceNonNegative | lib_SMML.py:143-144 | the weighted variance is non-negative, so its square root is taken of a number >= 0 |
| Calibration.ConstantValues | lib_SMML.py:142-143 | identical values have that value as mean and variance 0 |
| Calibration.WeightTotalZero | lib_SMML.py:142 | the weights sum to zero exactly when every weight is zero |
| Calibration.CorpusScoresAligned | lib_SMML.py:119-137 | the pass succeeds exactly when every entry scores; then its i-th score and count are those of the i-th non-blank line |
| Calibration.CorpusScoresErrorSticks | lib_SMML.py:135 | a scoring error in a prefix of the corpus is the outcome of the whole pass |
| Calibration.CorpusScoresNext | lib_SMML.py:124-137 | one more line either is skipped or appends its score and count |
| Calibration.ThresholdsOrdered | lib_SMML.py:146-147 | with sane numerics the normal threshold never exceeds the strong one |
| Calibration.UniformScoresThresholds | lib_SMML.py:139-147 | if every entry scores c and some weight is positive, both thresholds are round(c) |
| Calibration.CalibrateTrainingCorpus | lib_SMML.py:113-147 | a trained estimator calibrated on its own corpus with positive weights never fails to score, and sets thresholds exactly when the corpus has a non-blank line |
| Estimator.SMMLEstimator.ScoreCorpus | lib_SMML.py:119-137 | the scoring loop returns the scores and counts of `CorpusScores`, or its first error |
| Estimator.SMMLEstimator.ComputeThresholds | lib_SMML.py:108-147 | untrained, nothing changes; otherwise thresholds are set exactly when scoring succeeds and the weights do not sum to zero; tables unchanged; normal <= strong under sane numerics; on success both thresholds are set, and otherwise paired thresholds stay paired |
| Calibration.Label | lib_SMML.py:155-167 | error exactly when no normal threshold; 0 iff score < normal; 1 iff normal <= score < strong; 2 iff both <= score; boundary values go up |
| Calibration.LabelMonotone | lib_SMML.py:162-167 | with normal <= strong, a higher score never gets a lower label |
| Estimator.SMMLEstimator.GetLabel | lib_SMML.py:155-167 | on the held thresholds: `NoThresholds` exactly when `thre_nor` is unset; when the two thresholds are paired (both set or both unset, as the constructor, `Train` and `ComputeThresholds` keep them), an error exactly then; with only `thre_nor` set, `Incomparable` (the `TypeError` of comparing with a missing `thre_str`) exactly for a score at or above it; otherwise 0 iff score < `thre_nor`, 1 iff `thre_nor` <= score < `thre_str`, 2 iff both are <= score |
| Examples.ParseExampleLines | lib_SMML.py:36-46 | "2 abab" / "cdcd" parse to (abab, 2) and (cdcd, 1) |
| Examples.ExampleCorpusTerms | lib_SMML.py:50-104 | after training on that corpus, bucket 4 has total 12 and "abab" is scored with the terms 4/12, 2/4, 4/4 |
| Examples.ZeroWeightScoreFails | lib_SMML.py:41-42 | after "0 ab" / "cd", scoring "ab" takes log2(0/2) and fails with a math domain error |

## Left out

- File I/O, `print` and `sys.exit`: `train` and `compute_thresholds` take the file's lines as a sequence of strings. The `FileNotFoundError` path (lines 65-67) is not modelled.
- Python's universal-newline splitting of the file into lines: the lines are given.
- `save_model` and `load_model` (lines 169-186): pickle serialisation is not modelled.
- Floating-point arithmetic. `math.log2`, `round(., 3)` and `np.sqrt` are caller-supplied functions. The weighted mean and variance are exact reals, and the term quotient `num/den` is an exact real. Results such as `-log2(1/6) = 2.585` are therefore not derived.
- Reads through `defaultdict` insert a zero entry: `self.total_characters[length]` at line 76 and `db_len[gram1]` at line 99. The model reads missing keys as 0 and does not insert them. Under the table invariants the line-99 read never misses.
- Unicode `str.isdigit` and `int()`: digits are ASCII `'0'..'9'` only.
- meter.py and trainer.py (command-line front ends) are not part of this model.
- Estimator.SMMLEstimator.Train: it does not restate the table invariants as a postcondition. Frequency.TrainLinesKeepsValid states them about `TrainLines`, which Train's postcondition equals.

## Notes on the code

- A weight of 0 (`"0 pwd"`) is accepted and creates keys with count 0. Scoring against such a bucket can then raise. The model returns `Err` for this case; `Examples.ZeroWeightScoreFails` shows an instance.
- No smoothing covers a zero count or a zero denominator: the code raises, and so does the model.
- A line holding a single numeral (`"42"`) is the password "42" with weight 1. The count rule needs at least two tokens.
- Gram counts include every position, and the weight multiplies them. Training on "2 abab" and "cdcd" gives bucket 4 the counts a:4 b:4 ab:4 ba:2 c:2 d:2 cd:2 dc:1 and the total 12, so "abab" is scored with the terms 4/12, 2/4 and 4/4. Counting each gram once per password would give 2/12, 2/2 and 2/2 instead.
- Every adjacent pair is looked up, the one ending in the last character included, because term k reads `password[k:k+2]`.
- Scoring never modifies the tables: `CalculateScore` has no `modifies` clause.
