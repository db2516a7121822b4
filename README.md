# HMM part-of-speech tagger: counting and Viterbi decoding

This project models the two halves of a bigram hidden-Markov-model tagger.

- **Training** (`buildtagger.py`) reads lines of `word/tag` tokens. It counts tag-to-tag transitions and tag-to-word emissions into two frequency tables. Each table maps an outer key (a tag, or the previous tag) to a record:
  - the per-key counts;
  - the running total;
  - the number of keys seen exactly once;
  - for emissions, the number of capitalised words.

  Training also counts the tokens. Every line starts from the synthetic tag `SOS` and ends with a transition to `EOS`.
- **Decoding** (`runtagger.py`) turns those counts into probabilities:
  - the transition probability falls back to the singleton ratio for an unseen pair;
  - an unseen word gets 0 under a punctuation tag;
  - under any other tag, an unseen word gets the product of the singleton ratio, the same-capitalisation ratio and the tag's share of all tokens.

  It then runs the Viterbi dynamic programme over the tag list. That list is the transition keys in insertion order, without `SOS`. Finally it multiplies in P(EOS | tag), or 0.001 when EOS never followed the tag, and returns the path of the first best final score.

Modules:

- `Outcomes`: `Option` and `Result`.
- `Counts`: sums, singleton sets and the capitalised part of a count map.
- `Tables`: records and tables as values. `Observe` is one call of `add_to_dict`, and the class `FrequencyTable` performs it in place.
- `Training`: `SplitToken`, the specification fold `Train`, and the method `TrainModel` with the source's two loops over lines and tokens.
- `TrainingFacts`: what every trained model satisfies.
- `Estimator`: the two probability functions and their bounds.
- `Decoder`: the column recurrence as functions, plus the method `Viterbi` with the source's loops over arrays. `Viterbi` is proved equal to the function `Decode`.
- `DecoderFacts`: what `Decode` means. The returned sentence is the output of a most probable tagging, and the errors happen exactly when stated.

Probabilities are exact rationals (`real`). The source adds natural logarithms, and this model multiplies probabilities instead. `None` stands for the source's `-math.inf`. A `None` path stands for the placeholder `0` that the source leaves in `max_paths`/`temp_path_arr`.

## Model

| member | source | states |
|---|---|---|
| Training.SplitToken | buildtagger.py:40 | `rsplit('/', 1)` unpacked into word and tag succeeds exactly when the token contains '/'; then word + "/" + tag is the token and the tag holds no '/'; otherwise the error names the token |
| Training.SplitTokenUnique | buildtagger.py:40 | the split is at the last '/': any word and '/'-free tag that rebuild the token are the ones returned |
| Tables.ObserveEffect | buildtagger.py:54-75 | `add_to_dict` raises the count of key2 under key1 by one (creating it at 1) and the total of key1 by one. A new outer key is appended at the end of the key order. Every other count and every other record is unchanged |
| Tables.ObserveKeys | buildtagger.py:54-75 | the outer keys after the call are the old ones plus key1 |
| Tables.ObserveTotals | buildtagger.py:67-75 | the total of key1 grows by one; every other total is unchanged |
| Tables.ObserveShape | buildtagger.py:69-75 | outer keys stay distinct and in step with the records |
| Tables.BumpSingletons | buildtagger.py:57-62 | after updating an existing record, `ONE_OCCURENCE_COUNT` is again the number of keys with count 1 (down when a count leaves 1, up for a new key) |
| Tables.BumpCapitalised | buildtagger.py:64-65 | after updating an existing emission record, `CAPITALISED_COUNT` is again the sum of the counts of capitalised words |
| Tables.BumpValid | buildtagger.py:55-67 | updating an existing record keeps the record invariant (total = sum of counts, singletons = keys seen once, capitalised = capitalised part) |
| Tables.FreshRecordValid | buildtagger.py:69-75 | the record created for a new outer key satisfies the record invariant |
| Tables.ObserveValid | buildtagger.py:54-75 | every `add_to_dict` keeps every record of the table valid |
| Tables.RecordBounds | buildtagger.py:54-75 | in a valid record the total is at least 1, every count is between 1 and the total, and the singleton and capitalised numbers are between 0 and the total |
| Tables.ObserveSums | buildtagger.py:54-75 | one call adds one to the sum of all totals, and adds one to the column sum of key2 and nothing to the other columns |
| Tables.ObserveTotalsSum | buildtagger.py:67-75 | one call adds exactly one to the sum of the totals of all outer keys |
| Tables.ObserveCountsSum | buildtagger.py:57-61 | one call adds one to the sum over outer keys of the count of key2, and nothing for other keys |
| Tables.FrequencyTable.constructor | buildtagger.py:27-28 | a table of the given kind starts empty and valid |
| Tables.FrequencyTable.Add | buildtagger.py:54-75 | in place, the table becomes `Observe` of the old one, and validity is kept. It fails, with nothing changed, exactly when an emission word is empty and `key2[0]` raises |
| Training.TrainLineInPlace | buildtagger.py:34-45 | one line on the two tables in place: the tokens from SOS, then the EOS transition. The new tables and token count are those of `TrainLine`, and the error is `TrainLine`'s; both tables stay valid |
| Training.TrainModel | buildtagger.py:24-47 | the loop over lines returns exactly `Train(corpus)`: the model, or the first exception |
| TrainingFacts.TrainTokensValid | buildtagger.py:39-43 | the tokens of a line keep every record of both tables valid |
| TrainingFacts.TrainTokensSums | buildtagger.py:37-43 | each token adds one to the sum of emission totals and one to the sum of transition totals |
| TrainingFacts.TrainTokensBoundary | buildtagger.py:35-43 | within a line, the SOS total grows only for the first token, EOS counts do not change, and the last tag is SOS only for an empty line |
| TrainingFacts.TrainTokensTags | buildtagger.py:39-43 | every tag of the line becomes an emission key, and a transition key unless it is the line's last tag |
| TrainingFacts.BlankLine | buildtagger.py:34-45 | a blank line adds exactly one SOS -> EOS transition and changes no other count |
| TrainingFacts.TrainLinesValid | buildtagger.py:34-45 | any number of lines keeps both tables valid |
| TrainingFacts.TrainLinesCounted | buildtagger.py:34-45 | after k lines, the token count is the sum of the emission totals, and the transition totals sum to the token count plus k |
| TrainingFacts.TrainLinesBounded | buildtagger.py:34-45 | after k lines with no SOS/EOS tag, the SOS total is k, the EOS counts sum to k, and EOS is never an outer key |
| TrainingFacts.TrainLinesKeys | buildtagger.py:34-45 | outer keys only grow, and every tag of every line becomes an outer key of both tables |
| TrainingFacts.TrainedRecordsValid | buildtagger.py:24-47 | every record of a trained model satisfies the record invariant |
| TrainingFacts.TrainedTotals | buildtagger.py:24-47 | `total_tokens` is the sum of the emission totals, and the transition totals add up to it plus the number of lines |
| TrainingFacts.TrainedSentenceBoundaries | buildtagger.py:24-47 | when no token's tag is SOS or EOS, the SOS total and the number of EOS transitions both equal the number of lines, and EOS is no outer key |
| TrainingFacts.TrainedTagsKeyed | buildtagger.py:24-47 | every tag in the corpus is an outer key of both tables, every transition key but SOS has an emission record, and SOS is a key once there is a line |
| Estimator.TransitionProb | runtagger.py:88-96 | the estimate fails exactly on an unknown previous tag (KeyError) or a zero total |
| Estimator.EmissionProb | runtagger.py:98-118 | the estimate fails exactly on an unknown tag, a zero total, a zero token count or an empty unseen word. An unseen word under a punctuation tag gets 0, and every estimate is non-negative when the singleton number is non-negative and the capitalised number is within the total |
| Estimator.TransitionProbBounds | runtagger.py:88-96 | on a valid record the transition probability is in [0, 1], and positive for every pair seen in training |
| Estimator.EmissionProbBounds | runtagger.py:98-118 | on a valid record within the token count the emission probability is in [0, 1], and positive for a word seen under the tag |
| Estimator.UnknownWordZero | runtagger.py:104-116 | an unseen word under an open-class tag gets 0 exactly when the tag has no singleton or no token of the word's capitalisation |
| Estimator.UnknownWordFactors | runtagger.py:104-116 | the unseen-word estimate is a product of three ratios in [0, 1], and is 0 exactly when one of the first two numerators is |
| Estimator.TrainedTotalWithinTokens | runtagger.py:116 | in a trained model no tag's emission total exceeds `total_token_count`, so the last factor is at most 1 |
| Estimator.TrainedProbabilitiesInUnit | runtagger.py:88-118 | on a trained model both estimates succeed and lie in [0, 1] |
| Decoder.TagList | runtagger.py:43-44 | the tag list exists exactly when SOS is a transition key (otherwise `remove` raises); putting SOS back at its place gives the transition keys in order |
| Decoder.TagListKeys | runtagger.py:43-44 | the tag list holds each transition key other than SOS exactly once |
| Decoder.FirstBest | runtagger.py:84 | the first index whose score no other score beats, every earlier score being strictly lower; `None` exactly when every score is `-inf` |
| Decoder.FirstBestNext | runtagger.py:70-72 | scanning one more candidate moves the best only on a strictly better score |
| Decoder.SilentCell | runtagger.py:62-64 | a tag that cannot emit the word keeps score `-inf` and the placeholder path |
| Decoder.Viterbi | runtagger.py:41-86 | the method with the source's loops returns exactly `Decode(m, tokens)` |
| Decoder.Search | runtagger.py:46-86 | after the tag list: forward pass, EOS factors and selection give `BestTagging` |
| Decoder.Forward | runtagger.py:46-75 | after the loop over positions the arrays hold the last column of the recurrence; with no token the scores keep their initial log 0 (probability 1) and the paths are all placeholders |
| Decoder.InitInPlace | runtagger.py:50-57 | position 0 fills every score with P(t\|SOS)P(w\|t), or `-inf` when that is 0, and every path with `[w/t]` |
| Decoder.StepInPlace | runtagger.py:59-75 | one later position fills fresh arrays with the next column of the recurrence |
| Decoder.FillCell | runtagger.py:61-72 | fills only the cell of the current tag, leaving it impossible when the emission is 0 |
| Decoder.RelaxCell | runtagger.py:65-72 | the scan over previous tags keeps the first strictly best candidate and its extended path |
| Decoder.TerminateInPlace | runtagger.py:78-82 | multiplies every final score by the tag's EOS factor, in place |
| Decoder.SelectBest | runtagger.py:84 | `max_log_prob.index(max(max_log_prob))`: the first best index, 0 when all are `-inf` |
| DecoderFacts.PathProbSnoc | runtagger.py:69-72 | extending a tagging by one tag multiplies its probability by that word's emission and transition probabilities |
| DecoderFacts.CellBest | runtagger.py:49-75 | a possible cell's score is positive and is the probability of the tagging its back pointers trace, and its path is that tagging's output. At position 0 every path is the one-token path; later, an impossible cell has the placeholder path |
| DecoderFacts.StepPathBound | runtagger.py:59-75 | one step of the recurrence keeps the bound: if a prefix is bounded by its cell, the extension is bounded by the next cell |
| DecoderFacts.PathBound | runtagger.py:49-75 | the cell of a tagging's last tag bounds the probability of every tagging of the first j+1 words; an impossible cell means that probability is 0 |
| DecoderFacts.SentenceBound | runtagger.py:77-82 | after the EOS factor, the final score of the last tag bounds the whole-sentence probability of every tagging |
| DecoderFacts.FinalBest | runtagger.py:77-86 | when some final score is finite, the first best tag's back-pointer tagging is returned, has positive probability, and no tagging is more probable |
| DecoderFacts.FinalNoneZero | runtagger.py:77-84 | when every final score is `-inf`, every tagging has probability 0 |
| DecoderFacts.FinalNoneOutput | runtagger.py:84-86 | when every final score is `-inf`, a one-word sentence gets the first tag and a longer one fails on the placeholder |
| DecoderFacts.BestTaggingOptimal | runtagger.py:41-86 | for a non-empty sentence and at least one tag, the decoder fails only with the no-path error. It succeeds exactly when the sentence has one word or some tagging has positive probability, and then returns the output of a most probable tagging |
| DecoderFacts.TrainedIsDecodable | buildtagger.py:24-75 | every model training produces meets what the decoder needs: positive totals, emission records for every tag, aggregates within their totals |
| DecoderFacts.TagListEmpty | runtagger.py:43-44 | the tag list is empty exactly when SOS is the only transition key |
| DecoderFacts.DecodeErrors | runtagger.py:43-84 | decoding raises on the missing SOS record exactly when SOS is no transition key, and on `max` of an empty list exactly when SOS is the only key |
| DecoderFacts.DecodeOptimal | runtagger.py:41-86 | with SOS and at least one tag, an empty sentence fails on the placeholder path, and any other sentence gets a most probable tagging as in `BestTaggingOptimal` |

## Left out

- File I/O, JSON serialisation of the model, the command-line entry points and the timing prints are not modelled. A corpus is given as a sequence of lines, each already split on whitespace; a sentence to decode is given as a sequence of words.
- Floating point and logarithms are not modelled. Scores are exact products of probabilities, which order taggings the same way as sums of exact logarithms. Rounding in the source's floats could break a tie differently.
- `str.isupper` is modelled for ASCII letters only, with no Unicode case data.
- The reserved keys `(TOTAL-TAG-COUNT)`, `(ONE-OCCURENCE-COUNT)` and `(CAPITALISED-WORD-COUNT)` are separate record fields here. In the source they share the dictionary with the words and tags, so a word or tag spelt like one of them would corrupt the aggregates; the model assumes no such collision.
- Tables.FrequencyTable.Add: when `key2[0]` raises on an empty word after the counts of an existing emission record were already updated, the source leaves that partial update behind. The model changes nothing, because training aborts on that exception anyway.
- Decoder.Viterbi requires a decodable model (`Decodable`) and non-empty words. A model not produced by training can make the source raise KeyError or divide by zero, and those failures are not modelled. `DecoderFacts.TrainedIsDecodable` shows every trained model qualifies, and whitespace splitting never yields an empty word.
- Decoder.Viterbi returns the list of output tokens; joining them with single spaces and writing the line is not modelled.
- Decoder.RelaxCell keeps the running best of `temp_prob_arr[i]`/`temp_path_arr[i]` in two local variables and writes the cell once. Decoder.Forward handles position 0 before its loop rather than through the source's `idx == 0` branch. Neither changes the result.
- Decoder.Search: the score array is multiplied by the EOS factors in place, as in the source, but `SelectBest` is only reached with at least one tag. With no tag the source's `max([])` raises, which is the `NoTags` error.
- An empty sentence leaves every path as the placeholder 0, and `' '.join(0)` raises (runtagger.py:46-47, 86); the model returns `NoPath` rather than an output line.
- TrainingFacts.TrainedSentenceBoundaries: a corpus tag spelt `SOS` or `EOS` feeds the same transition records as the sentinels (buildtagger.py:42, 45), so the boundary facts are stated only for corpora without such tags, as with the reserved-key collision above.
