/**
  Transition and emission probabilities read off a trained model
  (`get_transition_prob`, `get_emission_prob`), as exact ratios.
 */
module Estimator {
  import opened Outcomes
  import opened Counts
  import opened Tables
  import opened Training
  import opened TrainingFacts

  /** The closed-class tags: an unseen word never gets one of these. */
  const PunctuationTags: seq<string> := [".", ",", ":", "$", "#", "``", "''"]

  datatype ProbError =
    | UnknownTag(tag: string)  // the dictionary lookup of the outer key raises KeyError
    | DivisionByZero           // a total of 0
    | EmptyInput               // `word[0]` of the empty word raises IndexError

  /**
    P(curr | prev): the count of `curr` after `prev` over the total of `prev`,
    or, for a pair never seen, the number of tags seen once after `prev` over
    that total.
   */
  function TransitionProb(m: Model, prev: string, curr: string): (r: Result<real, ProbError>)
    ensures r.Err? <==> prev !in m.transition.records || m.transition.records[prev].total == 0
    ensures prev !in m.transition.records ==> r == Err(UnknownTag(prev))
  {
    if prev !in m.transition.records then Err(UnknownTag(prev))
    else
      var rec := m.transition.records[prev];
      if rec.total == 0 then Err(DivisionByZero)
      else if curr in rec.counts then Ok(rec.counts[curr] as real / rec.total as real)
      else Ok(rec.singletons as real / rec.total as real)
  }

  /** The number of tokens under the tag with the same capitalisation as `word`. */
  function ShapeCount(rec: Record, word: string): int
    requires |word| > 0
  {
    if IsUpper(word[0]) then rec.capitalised else rec.total - rec.capitalised
  }

  /**
    P(word | tag): the count of `word` under `tag` over the tag's total. An
    unseen word gets 0 under a punctuation tag and otherwise the product of the
    singleton ratio, the ratio of same-capitalisation tokens and the tag's share
    of all tokens.
   */
  function EmissionProb(m: Model, tag: string, word: string): (r: Result<real, ProbError>)
    ensures r.Ok? && tag in m.emission.records && m.emission.records[tag].singletons >= 0 && m.emission.records[tag].capitalised <= m.emission.records[tag].total
      ==> r.value >= 0.0
    ensures tag !in m.emission.records ==> r == Err(UnknownTag(tag))
    ensures tag in m.emission.records && word !in m.emission.records[tag].counts && tag in PunctuationTags
      ==> r == Ok(0.0)
    ensures r.Err? <==>
      || tag !in m.emission.records
      || (word in m.emission.records[tag].counts && m.emission.records[tag].total == 0)
      || (word !in m.emission.records[tag].counts && tag !in PunctuationTags &&
          (|word| == 0 || m.emission.records[tag].total == 0 || m.totalTokens == 0))
  {
    if tag !in m.emission.records then Err(UnknownTag(tag))
    else
      var rec := m.emission.records[tag];
      if word in rec.counts then
        if rec.total == 0 then Err(DivisionByZero) else Ok(rec.counts[word] as real / rec.total as real)
      else if tag in PunctuationTags then Ok(0.0)
      else if |word| == 0 then Err(EmptyInput)
      else if rec.total == 0 || m.totalTokens == 0 then Err(DivisionByZero)
      else
        var total := rec.total as real;
        UnknownWordSign(rec, word, m.totalTokens);
        Ok((rec.singletons as real / total) * (ShapeCount(rec, word) as real / total) * (total / m.totalTokens as real))
  }

  // ---------------------------------------------------------------- arithmetic

  lemma RatioInUnit(a: int, b: int)
    requires 0 <= a <= b && b > 0
    ensures 0.0 <= a as real / b as real <= 1.0
    ensures a as real / b as real == 0.0 <==> a == 0
  {
    var q := a as real / b as real;
    assert q * b as real == a as real;
  }

  lemma ProductNonNegative(x: real, y: real)
    requires x >= 0.0 && y >= 0.0
    ensures x * y >= 0.0
  {
  }

  /** The unseen-word estimate is non-negative whenever its aggregates are in range. */
  lemma UnknownWordSign(rec: Record, word: string, tokens: nat)
    requires |word| > 0 && rec.total > 0 && tokens > 0
    ensures var total := rec.total as real;
      rec.singletons >= 0 && rec.capitalised <= rec.total ==>
        (rec.singletons as real / total) * (ShapeCount(rec, word) as real / total) * (total / tokens as real) >= 0.0
  {
    var total := rec.total as real;
    if rec.singletons >= 0 && rec.capitalised <= rec.total {
      ProductNonNegative(rec.singletons as real / total, ShapeCount(rec, word) as real / total);
      ProductNonNegative((rec.singletons as real / total) * (ShapeCount(rec, word) as real / total), total / tokens as real);
    }
  }

  lemma ProductInUnit(x: real, y: real)
    requires 0.0 <= x <= 1.0 && 0.0 <= y <= 1.0
    ensures 0.0 <= x * y <= 1.0
    ensures x * y == 0.0 <==> x == 0.0 || y == 0.0
  {
    assert x * y <= 1.0 * y;
  }

  // ---------------------------------------------------------------- probabilities of a valid record

  /**
    Under the record invariant the transition probability lies in [0, 1], and it
    is positive for every pair seen in training.
   */
  lemma TransitionProbBounds(m: Model, prev: string, curr: string)
    requires prev in m.transition.records && ValidRecord(TransitionKind, m.transition.records[prev])
    ensures TransitionProb(m, prev, curr).Ok?
    ensures 0.0 <= TransitionProb(m, prev, curr).value <= 1.0
    ensures curr in m.transition.records[prev].counts ==> TransitionProb(m, prev, curr).value > 0.0
  {
    var rec := m.transition.records[prev];
    RecordBounds(TransitionKind, rec, curr);
    if curr in rec.counts {
      RatioInUnit(rec.counts[curr], rec.total);
    } else {
      RatioInUnit(rec.singletons, rec.total);
    }
  }

  /**
    Under the record invariant, and with the tag's total within the token
    count, the emission probability lies in [0, 1]; it is positive for a word
    seen under the tag.
   */
  lemma EmissionProbBounds(m: Model, tag: string, word: string)
    requires tag in m.emission.records && ValidRecord(EmissionKind, m.emission.records[tag])
    requires m.emission.records[tag].total <= m.totalTokens
    requires |word| > 0
    ensures EmissionProb(m, tag, word).Ok?
    ensures 0.0 <= EmissionProb(m, tag, word).value <= 1.0
    ensures word in m.emission.records[tag].counts ==> EmissionProb(m, tag, word).value > 0.0
  {
    var rec := m.emission.records[tag];
    RecordBounds(EmissionKind, rec, word);
    if word in rec.counts {
      RatioInUnit(rec.counts[word], rec.total);
    } else if tag !in PunctuationTags {
      UnknownWordFactors(m, tag, word);
    }
  }

  /**
    For an unseen word under an open-class tag, the estimate is 0 exactly when
    no word was seen once under the tag or no token under it shares the word's
    capitalisation; there is no floor.
   */
  lemma UnknownWordZero(m: Model, tag: string, word: string)
    requires tag in m.emission.records && ValidRecord(EmissionKind, m.emission.records[tag])
    requires m.emission.records[tag].total <= m.totalTokens
    requires |word| > 0 && word !in m.emission.records[tag].counts && tag !in PunctuationTags
    ensures EmissionProb(m, tag, word).Ok?
    ensures EmissionProb(m, tag, word).value == 0.0 <==>
      m.emission.records[tag].singletons == 0 || ShapeCount(m.emission.records[tag], word) == 0
  {
    UnknownWordFactors(m, tag, word);
  }

  lemma UnknownWordFactors(m: Model, tag: string, word: string)
    requires tag in m.emission.records && ValidRecord(EmissionKind, m.emission.records[tag])
    requires m.emission.records[tag].total <= m.totalTokens
    requires |word| > 0 && word !in m.emission.records[tag].counts && tag !in PunctuationTags
    ensures EmissionProb(m, tag, word).Ok?
    ensures 0.0 <= EmissionProb(m, tag, word).value <= 1.0
    ensures EmissionProb(m, tag, word).value == 0.0 <==>
      m.emission.records[tag].singletons == 0 || ShapeCount(m.emission.records[tag], word) == 0
  {
    var rec := m.emission.records[tag];
    RecordBounds(EmissionKind, rec, word);
    var total := rec.total as real;
    var s := rec.singletons as real / total;
    var c := ShapeCount(rec, word) as real / total;
    var p := total / m.totalTokens as real;
    RatioInUnit(rec.singletons, rec.total);
    RatioInUnit(ShapeCount(rec, word), rec.total);
    RatioInUnit(rec.total, m.totalTokens);
    ProductInUnit(s, c);
    ProductInUnit(s * c, p);
    assert EmissionProb(m, tag, word).value == s * c * p;
  }

  // ---------------------------------------------------------------- trained models

  /** A tag's emission total never exceeds the token count of a trained model. */
  lemma TrainedTotalWithinTokens(corpus: seq<seq<string>>, tag: string)
    requires Train(corpus).Ok? && tag in Train(corpus).value.emission.records
    ensures Train(corpus).value.emission.records[tag].total <= Train(corpus).value.totalTokens
  {
    var m := Train(corpus).value;
    TrainedTotals(corpus);
    TrainedRecordsValid(corpus);
    SumOverTerm(m.emission.keys, k => TotalOf(m.emission, k), tag);
  }

  /**
    On a trained model every lookup the decoder makes with a trained tag
    succeeds, and both probabilities lie in [0, 1].
   */
  lemma TrainedProbabilitiesInUnit(corpus: seq<seq<string>>, prev: string, tag: string, word: string)
    requires Train(corpus).Ok?
    requires prev in Train(corpus).value.transition.records
    requires tag in Train(corpus).value.emission.records && |word| > 0
    ensures var m := Train(corpus).value;
      && TransitionProb(m, prev, tag).Ok? && 0.0 <= TransitionProb(m, prev, tag).value <= 1.0
      && EmissionProb(m, tag, word).Ok? && 0.0 <= EmissionProb(m, tag, word).value <= 1.0
  {
    TrainedRecordsValid(corpus);
    TrainedTotalWithinTokens(corpus, tag);
    TransitionProbBounds(Train(corpus).value, prev, tag);
    EmissionProbBounds(Train(corpus).value, tag, word);
  }
}
