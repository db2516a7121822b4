/**
  What the decoder computes, stated without its arrays: the column of
  position j holds, per tag, the largest probability of any tagging of the
  first j + 1 words that ends in that tag, together with a tagging that
  achieves it; the sentence `viterbi` returns is a most probable tagging once
  the EOS factor is multiplied in.
 */
module DecoderFacts {
  import opened Outcomes
  import opened Tables
  import opened Training
  import opened TrainingFacts
  import opened Estimator
  import opened Decoder

  /** A tagging of the first n words: one index into the tag list per word. */
  predicate Labelling(tags: seq<string>, ls: seq<nat>, n: nat) {
    |ls| == n && forall k :: 0 <= k < n ==> ls[k] < |tags|
  }

  lemma MonotoneProduct(a: real, b: real, c: real)
    requires 0.0 <= a <= b && c >= 0.0
    ensures a * c <= b * c
  {
    assert b * c - a * c == (b - a) * c;
    ProductNonNegative(b - a, c);
  }

  lemma ScaleZero(p: real, emission: real, transition: real)
    requires p == 0.0 || emission == 0.0 || transition == 0.0
    ensures Scale(p, emission, transition) == 0.0
  {
  }

  lemma ScaleMonotone(a: real, b: real, emission: real, transition: real)
    requires 0.0 <= a <= b && emission >= 0.0 && transition >= 0.0
    ensures Scale(a, emission, transition) <= Scale(b, emission, transition)
  {
    ProductNonNegative(emission, transition);
    MonotoneProduct(a, b, emission * transition);
  }

  lemma ScaleNonNegative(p: real, emission: real, transition: real)
    requires p >= 0.0 && emission >= 0.0 && transition >= 0.0
    ensures Scale(p, emission, transition) >= 0.0
  {
    ProductNonNegative(emission, transition);
    ProductNonNegative(p, emission * transition);
  }

  lemma TerminatedSign(p: real, eos: real)
    requires p >= 0.0 && eos > 0.0
    ensures Terminated(p, eos) >= 0.0
    ensures Terminated(p, eos) > 0.0 <==> p > 0.0
  {
    PositiveProduct(p, eos);
    ProductNonNegative(p, eos);
  }

  lemma TerminatedMonotone(a: real, b: real, eos: real)
    requires 0.0 <= a <= b && eos >= 0.0
    ensures Terminated(a, eos) <= Terminated(b, eos)
    ensures b == 0.0 ==> Terminated(a, eos) == 0.0
  {
    MonotoneProduct(a, b, eos);
  }

  lemma WeightedPositive(s: Option<real>, emission: real, transition: real)
    requires s.Some? && s.value > 0.0 && emission > 0.0 && transition > 0.0
    ensures Weighted(s, emission, transition).Some? && Weighted(s, emission, transition).value > 0.0
  {
    PositiveProduct(emission, transition);
    PositiveProduct(s.value, emission * transition);
  }

  /**
    The probability the model gives to tagging the first |ls| words with
    `ls`: P(t0 | SOS) P(w0 | t0), then P(wj | tj) P(tj | tj-1) for each later
    word, multiplied in the order the decoder multiplies them.
   */
  function PathProb(m: Model, tags: seq<string>, words: seq<string>, ls: seq<nat>): (p: real)
    requires ValidTags(m, tags) && NonEmptyWords(words)
    requires 0 < |ls| <= |words| && Labelling(tags, ls, |ls|)
    ensures p >= 0.0
    decreases |ls|
  {
    var j := |ls| - 1;
    if j == 0 then
      var t := Trans(m, SOS, tags[ls[0]]);
      var e := Emit(m, tags[ls[0]], words[0]);
      ProductNonNegative(t, e);
      t * e
    else
      var e := Emit(m, tags[ls[j]], words[j]);
      var t := Trans(m, tags[ls[j - 1]], tags[ls[j]]);
      var prefix := PathProb(m, tags, words, ls[..j]);
      ScaleNonNegative(prefix, e, t);
      Scale(prefix, e, t)
  }

  /** The whole sentence: the path times the last tag's EOS factor. */
  function SentenceProb(m: Model, tags: seq<string>, words: seq<string>, ls: seq<nat>): (p: real)
    requires ValidTags(m, tags) && NonEmptyWords(words) && |words| > 0
    requires Labelling(tags, ls, |words|)
    ensures p >= 0.0
    ensures p > 0.0 <==> PathProb(m, tags, words, ls) > 0.0
  {
    var path := PathProb(m, tags, words, ls);
    var eos := EosFactor(m, tags[ls[|ls| - 1]]);
    TerminatedSign(path, eos);
    Terminated(path, eos)
  }

  /** The output tokens `word/tag` of a tagging of the first |ls| words. */
  function Tagged(tags: seq<string>, words: seq<string>, ls: seq<nat>): (out: seq<string>)
    requires |ls| <= |words| && Labelling(tags, ls, |ls|)
    ensures |out| == |ls|
  {
    seq(|ls|, k requires 0 <= k < |ls| => Token(words[k], tags[ls[k]]))
  }

  lemma TaggedSnoc(tags: seq<string>, words: seq<string>, ls: seq<nat>, i: nat)
    requires |ls| < |words| && Labelling(tags, ls, |ls|) && i < |tags|
    ensures Labelling(tags, ls + [i], |ls| + 1)
    ensures Tagged(tags, words, ls + [i]) == Tagged(tags, words, ls) + [Token(words[|ls|], tags[i])]
  {
  }

  /** Extending a tagging by one tag multiplies in that word's emission and transition. */
  lemma {:induction false} PathProbSnoc(m: Model, tags: seq<string>, words: seq<string>, ls: seq<nat>, i: nat)
    requires ValidTags(m, tags) && NonEmptyWords(words)
    requires 0 < |ls| < |words| && Labelling(tags, ls, |ls|) && i < |tags|
    ensures Labelling(tags, ls + [i], |ls| + 1)
    ensures Some(PathProb(m, tags, words, ls + [i])) ==
      Weighted(Some(PathProb(m, tags, words, ls)), Emit(m, tags[i], words[|ls|]), Trans(m, tags[ls[|ls| - 1]], tags[i]))
  {
    PathProbLast(m, tags, words, ls + [i], |ls|);
    assert (ls + [i])[..|ls|] == ls;
  }

  /** The last factor of a tagging of j + 1 > 1 words. */
  lemma PathProbLast(m: Model, tags: seq<string>, words: seq<string>, ls: seq<nat>, j: nat)
    requires ValidTags(m, tags) && NonEmptyWords(words)
    requires 0 < j < |words| && Labelling(tags, ls, j + 1)
    ensures PathProb(m, tags, words, ls) ==
        Scale(PathProb(m, tags, words, ls[..j]), Emit(m, tags[ls[j]], words[j]), Trans(m, tags[ls[j - 1]], tags[ls[j]]))
  {
  }

  /** The tagging recovered by following the back pointers from tag i at position j. */
  function BestLabels(m: Model, tags: seq<string>, words: seq<string>, j: nat, i: nat): (ls: seq<nat>)
    requires ValidTags(m, tags) && NonEmptyWords(words) && j < |words| && i < |tags|
    ensures Labelling(tags, ls, j + 1) && ls[j] == i
  {
    if j == 0 then [i]
    else
      var prev := ColumnAt(m, tags, words, j - 1);
      match Back(m, tags, prev, words[j], i)
      case None => BestLabels(m, tags, words, j - 1, i) + [i]
      case Some(x) => BestLabels(m, tags, words, j - 1, x) + [i]
  }

  /** A cell after position 0 is the cell of the recurrence applied to the previous column. */
  lemma ColumnAtCell(m: Model, tags: seq<string>, words: seq<string>, j: nat, i: nat)
    requires ValidTags(m, tags) && NonEmptyWords(words) && 0 < j < |words| && i < |tags|
    ensures var prev := ColumnAt(m, tags, words, j - 1);
      && ColumnAt(m, tags, words, j).scores[i] == CellScore(m, tags, prev, words[j], i)
      && ColumnAt(m, tags, words, j).paths[i] == CellPath(m, tags, prev, words[j], i)
  {
  }

  /** A score bounds a probability; an impossible score bounds only 0. */
  predicate Bounds(score: Option<real>, p: real) {
    match score
    case None => p == 0.0
    case Some(s) => p <= s
  }

  /** At position 0 a tag's cell is possible exactly when its one-word tagging has positive probability. */
  lemma {:induction false} InitCellScore(m: Model, tags: seq<string>, words: seq<string>, i: nat)
    requires ValidTags(m, tags) && NonEmptyWords(words) && 0 < |words| && i < |tags|
    ensures var score := ColumnAt(m, tags, words, 0).scores[i];
      && (score.Some? ==> score.value > 0.0 && score.value == PathProb(m, tags, words, [i]))
      && (score.None? ==> PathProb(m, tags, words, [i]) == 0.0)
  {
    var t := Trans(m, SOS, tags[i]);
    var e := Emit(m, tags[i], words[0]);
    PositiveProduct(t, e);
    ProductNonNegative(t, e);
    assert ColumnAt(m, tags, words, 0).scores[i] == InitScore(m, tags[i], words[0]);
    assert PathProb(m, tags, words, [i]) == t * e;
  }

  /** A cell after position 0 with a back pointer: the previous cell extended by one word. */
  lemma StepCellSome(m: Model, tags: seq<string>, words: seq<string>, j: nat, i: nat, b: nat)
    requires ValidTags(m, tags) && NonEmptyWords(words) && 0 < j < |words| && i < |tags|
    requires Back(m, tags, ColumnAt(m, tags, words, j - 1), words[j], i) == Some(b)
    ensures var prev := ColumnAt(m, tags, words, j - 1);
      var e := Emit(m, tags[i], words[j]);
      var t := Trans(m, tags[b], tags[i]);
      && b < |tags| && prev.scores[b].Some? && e > 0.0 && t > 0.0
      && ColumnAt(m, tags, words, j).scores[i] == Weighted(prev.scores[b], e, t)
      && ColumnAt(m, tags, words, j).paths[i] == Extend(prev.paths[b], Token(words[j], tags[i]))
      && BestLabels(m, tags, words, j, i) == BestLabels(m, tags, words, j - 1, b) + [i]
  {
    var prev := ColumnAt(m, tags, words, j - 1);
    var w := words[j];
    ColumnAtCell(m, tags, words, j, i);
    var cands := Candidates(m, tags, prev, w, i);
    assert cands[b] == Candidate(m, tags, prev, w, i, b);
  }

  /**
    The cell of tag i at position j is what the back pointers say: a possible
    score is positive, is the probability of the back-pointer tagging and
    comes with that tagging's output; at position 0 every cell has the
    one-token path; later, an impossible cell has no path.
   */
  lemma {:induction false} CellBest(m: Model, tags: seq<string>, words: seq<string>, j: nat, i: nat)
    requires ValidTags(m, tags) && NonEmptyWords(words) && j < |words| && i < |tags|
    ensures var col := ColumnAt(m, tags, words, j);
      var best := BestLabels(m, tags, words, j, i);
      && (col.scores[i].Some? ==>
            col.scores[i].value > 0.0 && col.scores[i].value == PathProb(m, tags, words, best)
            && col.paths[i] == Some(Tagged(tags, words, best)))
      && (j == 0 ==> col.paths[i] == Some(Tagged(tags, words, [i])))
      && (j > 0 && col.scores[i].None? ==> col.paths[i].None?)
  {
    if j == 0 {
      InitCellScore(m, tags, words, i);
      assert Tagged(tags, words, [i]) == [Token(words[0], tags[i])];
    } else {
      var prev := ColumnAt(m, tags, words, j - 1);
      var back := Back(m, tags, prev, words[j], i);
      ColumnAtCell(m, tags, words, j, i);
      if back.Some? {
        var b := back.value;
        StepCellSome(m, tags, words, j, i, b);
        var pre := BestLabels(m, tags, words, j - 1, b);
        CellBest(m, tags, words, j - 1, b);
        PathProbSnoc(m, tags, words, pre, i);
        WeightedPositive(prev.scores[b], Emit(m, tags[i], words[j]), Trans(m, tags[b], tags[i]));
        TaggedSnoc(tags, words, pre, i);
      }
    }
  }

  /** One step of the bound: if the previous cell bounds a tagging, the cell of the next tag bounds its extension. */
  lemma StepPathBound(m: Model, tags: seq<string>, words: seq<string>, j: nat, pre: seq<nat>, i: nat)
    requires ValidTags(m, tags) && NonEmptyWords(words) && 0 < j < |words| && Labelling(tags, pre, j) && i < |tags|
    requires Bounds(ColumnAt(m, tags, words, j - 1).scores[pre[j - 1]], PathProb(m, tags, words, pre))
    ensures Labelling(tags, pre + [i], j + 1)
    ensures Bounds(ColumnAt(m, tags, words, j).scores[i], PathProb(m, tags, words, pre + [i]))
  {
    var ls := pre + [i];
    assert Labelling(tags, ls, j + 1) && ls[..j] == pre && ls[j] == i && ls[j - 1] == pre[j - 1];
    var prev := ColumnAt(m, tags, words, j - 1);
    var w := words[j];
    var x := pre[j - 1];
    var e := Emit(m, tags[i], w);
    var t := Trans(m, tags[x], tags[i]);
    var p := PathProb(m, tags, words, pre);
    PathProbLast(m, tags, words, ls, j);
    ColumnAtCell(m, tags, words, j, i);
    if e == 0.0 || t == 0.0 || prev.scores[x].None? {
      ScaleZero(p, e, t);
      CellBest(m, tags, words, j, i);
    } else {
      var cands := Candidates(m, tags, prev, w, i);
      assert cands[x] == Candidate(m, tags, prev, w, i, x);
      assert cands[x] == Some(Scale(prev.scores[x].value, e, t));
      ScaleMonotone(p, prev.scores[x].value, e, t);
      assert Scale(p, e, t) <= cands[x].value;
      assert Back(m, tags, prev, w, i) == FirstBest(cands);
      var b := FirstBest(cands).value;
      assert cands[b] == Candidate(m, tags, prev, w, i, b);
      assert ColumnAt(m, tags, words, j).scores[i] == cands[b];
      assert cands[x].value <= cands[b].value;
    }
  }

  /** At position 0 the cell of a one-tag tagging bounds its probability. */
  lemma InitPathBound(m: Model, tags: seq<string>, words: seq<string>, ls: seq<nat>)
    requires ValidTags(m, tags) && NonEmptyWords(words) && 0 < |words| && Labelling(tags, ls, 1)
    ensures Bounds(ColumnAt(m, tags, words, 0).scores[ls[0]], PathProb(m, tags, words, ls))
  {
    InitCellScore(m, tags, words, ls[0]);
    assert ls == [ls[0]];
  }

  /**
    The Viterbi recurrence is right: the cell of a tagging's last tag bounds
    the probability of every tagging of the first j + 1 words, and is
    impossible only when that probability is 0.
   */
  lemma {:induction false} PathBound(m: Model, tags: seq<string>, words: seq<string>, j: nat, ls: seq<nat>)
    requires ValidTags(m, tags) && NonEmptyWords(words) && j < |words| && Labelling(tags, ls, j + 1)
    ensures Bounds(ColumnAt(m, tags, words, j).scores[ls[j]], PathProb(m, tags, words, ls))
  {
    if j == 0 {
      InitPathBound(m, tags, words, ls);
    } else {
      var pre := ls[..j];
      assert Labelling(tags, pre, j) && ls == pre + [ls[j]];
      PathBound(m, tags, words, j - 1, pre);
      StepPathBound(m, tags, words, j, pre, ls[j]);
    }
  }

  /** Multiplying in the EOS factor keeps a bound. */
  lemma TimesBounds(score: Option<real>, p: real, eos: real)
    requires p >= 0.0 && eos > 0.0 && Bounds(score, p)
    ensures Bounds(Times(score, eos), Terminated(p, eos))
  {
    if score.Some? {
      TerminatedMonotone(p, score.value, eos);
    } else {
      TerminatedMonotone(p, 0.0, eos);
    }
  }

  /** A tagging of the whole sentence is bounded by the final score of its last tag. */
  lemma SentenceBound(m: Model, tags: seq<string>, words: seq<string>, j: nat, ls: seq<nat>)
    requires ValidTags(m, tags) && NonEmptyWords(words) && |words| == j + 1 && Labelling(tags, ls, j + 1)
    ensures var fs := FinalScores(m, tags, ColumnAt(m, tags, words, j).scores);
      Bounds(fs[ls[j]], SentenceProb(m, tags, words, ls))
  {
    var x := ls[j];
    var score := ColumnAt(m, tags, words, j).scores[x];
    var p := PathProb(m, tags, words, ls);
    var eos := EosFactor(m, tags[x]);
    PathBound(m, tags, words, j, ls);
    assert Bounds(score, p);
    TimesBounds(score, p, eos);
    assert FinalScores(m, tags, ColumnAt(m, tags, words, j).scores)[x] == Times(score, eos);
    assert SentenceProb(m, tags, words, ls) == Terminated(p, eos);
  }

  /** `BestTagging` for a sentence of j + 1 words. */
  lemma BestTaggingAt(m: Model, tags: seq<string>, words: seq<string>, j: nat)
    requires ValidTags(m, tags) && NonEmptyWords(words) && |tags| > 0 && |words| == j + 1
    ensures var col := ColumnAt(m, tags, words, j);
      var path := col.paths[Selected(FinalScores(m, tags, col.scores))];
      BestTagging(m, tags, words) == if path.Some? then Ok(path.value) else Err(NoPath)
  {
  }

  /** A score that is not better than a positive best score bounds nothing above the best. */
  lemma BoundedByBest(a: Option<real>, best: Option<real>, q: real)
    requires Bounds(a, q) && best.Some? && best.value > 0.0 && !Better(a, best)
    ensures q <= best.value
  {
  }

  /** The first best final score is the probability of its back-pointer tagging, which is returned. */
  lemma FinalBestOutput(m: Model, tags: seq<string>, words: seq<string>, j: nat, s: nat)
    requires ValidTags(m, tags) && NonEmptyWords(words) && |tags| > 0 && |words| == j + 1
    requires FirstBest(FinalScores(m, tags, ColumnAt(m, tags, words, j).scores)) == Some(s)
    ensures var fs := FinalScores(m, tags, ColumnAt(m, tags, words, j).scores);
      var best := BestLabels(m, tags, words, j, s);
      && BestTagging(m, tags, words) == Ok(Tagged(tags, words, best))
      && fs[s].value == SentenceProb(m, tags, words, best) > 0.0
  {
    var last := ColumnAt(m, tags, words, j);
    var fs := FinalScores(m, tags, last.scores);
    var best := BestLabels(m, tags, words, j, s);
    var eos := EosFactor(m, tags[s]);
    assert fs[s] == Times(last.scores[s], eos);
    CellBest(m, tags, words, j, s);
    BestTaggingAt(m, tags, words, j);
    TerminatedSign(PathProb(m, tags, words, best), eos);
    assert SentenceProb(m, tags, words, best) == Terminated(PathProb(m, tags, words, best), eos);
  }

  /** Every tagging is bounded by a positive first best final score. */
  lemma FinalBestBound(m: Model, tags: seq<string>, words: seq<string>, j: nat, s: nat, other: seq<nat>)
    requires ValidTags(m, tags) && NonEmptyWords(words) && |tags| > 0 && |words| == j + 1
    requires FirstBest(FinalScores(m, tags, ColumnAt(m, tags, words, j).scores)) == Some(s)
    requires FinalScores(m, tags, ColumnAt(m, tags, words, j).scores)[s].value > 0.0
    requires Labelling(tags, other, j + 1)
    ensures SentenceProb(m, tags, words, other) <= FinalScores(m, tags, ColumnAt(m, tags, words, j).scores)[s].value
  {
    var fs := FinalScores(m, tags, ColumnAt(m, tags, words, j).scores);
    SentenceBound(m, tags, words, j, other);
    BoundedByBest(fs[other[j]], fs[s], SentenceProb(m, tags, words, other));
  }

  /** Some final score is possible: the first best one's tagging is returned and is most probable. */
  lemma FinalBest(m: Model, tags: seq<string>, words: seq<string>, j: nat, s: nat)
    requires ValidTags(m, tags) && NonEmptyWords(words) && |tags| > 0 && |words| == j + 1
    requires FirstBest(FinalScores(m, tags, ColumnAt(m, tags, words, j).scores)) == Some(s)
    ensures var best := BestLabels(m, tags, words, j, s);
      && BestTagging(m, tags, words) == Ok(Tagged(tags, words, best))
      && SentenceProb(m, tags, words, best) > 0.0
      && forall other :: Labelling(tags, other, j + 1) ==>
           SentenceProb(m, tags, words, other) <= SentenceProb(m, tags, words, best)
  {
    FinalBestOutput(m, tags, words, j, s);
    forall other | Labelling(tags, other, j + 1)
      ensures SentenceProb(m, tags, words, other) <= SentenceProb(m, tags, words, BestLabels(m, tags, words, j, s))
    {
      FinalBestBound(m, tags, words, j, s, other);
    }
  }

  /** With no possible final score every tagging has probability 0. */
  lemma FinalNoneZero(m: Model, tags: seq<string>, words: seq<string>, j: nat, ls: seq<nat>)
    requires ValidTags(m, tags) && NonEmptyWords(words) && |tags| > 0 && |words| == j + 1
    requires FirstBest(FinalScores(m, tags, ColumnAt(m, tags, words, j).scores)).None?
    requires Labelling(tags, ls, j + 1)
    ensures SentenceProb(m, tags, words, ls) == 0.0
  {
    var fs := FinalScores(m, tags, ColumnAt(m, tags, words, j).scores);
    SentenceBound(m, tags, words, j, ls);
    assert fs[ls[j]].None?;
  }

  /** With no possible final score only a one-word sentence gets a path: the first tag's. */
  lemma FinalNoneOutput(m: Model, tags: seq<string>, words: seq<string>, j: nat)
    requires ValidTags(m, tags) && NonEmptyWords(words) && |tags| > 0 && |words| == j + 1
    requires FirstBest(FinalScores(m, tags, ColumnAt(m, tags, words, j).scores)).None?
    ensures BestTagging(m, tags, words) == if j == 0 then Ok(Tagged(tags, words, [0])) else Err(NoPath)
  {
    var last := ColumnAt(m, tags, words, j);
    var fs := FinalScores(m, tags, last.scores);
    assert fs[0] == Times(last.scores[0], EosFactor(m, tags[0]));
    CellBest(m, tags, words, j, 0);
    BestTaggingAt(m, tags, words, j);
  }

  /**
    The outcome `viterbi` promises for a sentence of at least one word: it
    fails only with `NoPath`; it succeeds exactly when the sentence has one
    word or some tagging has positive probability (EOS factor included); and
    on success it returns the output of a most probable tagging.
   */
  ghost predicate MostProbable(m: Model, tags: seq<string>, words: seq<string>, r: Result<seq<string>, DecodeError>)
    requires ValidTags(m, tags) && NonEmptyWords(words) && |words| > 0
  {
    && (r.Err? ==> r.error == NoPath)
    && (r.Ok? <==> (|words| == 1 ||
          exists ls :: Labelling(tags, ls, |words|) && SentenceProb(m, tags, words, ls) > 0.0))
    && (r.Ok? ==> exists ls :: (Labelling(tags, ls, |words|) && r.value == Tagged(tags, words, ls)
          && forall other :: Labelling(tags, other, |words|) ==>
               SentenceProb(m, tags, words, other) <= SentenceProb(m, tags, words, ls)))
  }

  /** A possible final score: `viterbi` returns a most probable tagging. */
  lemma FoundMostProbable(m: Model, tags: seq<string>, words: seq<string>, j: nat, s: nat)
    requires ValidTags(m, tags) && NonEmptyWords(words) && |tags| > 0 && |words| == j + 1
    requires FirstBest(FinalScores(m, tags, ColumnAt(m, tags, words, j).scores)) == Some(s)
    ensures MostProbable(m, tags, words, BestTagging(m, tags, words))
  {
    FinalBest(m, tags, words, j, s);
  }

  /** No possible final score: `viterbi` fails unless the sentence has one word. */
  lemma NoneMostProbable(m: Model, tags: seq<string>, words: seq<string>, j: nat)
    requires ValidTags(m, tags) && NonEmptyWords(words) && |tags| > 0 && |words| == j + 1
    requires FirstBest(FinalScores(m, tags, ColumnAt(m, tags, words, j).scores)).None?
    ensures MostProbable(m, tags, words, BestTagging(m, tags, words))
  {
    FinalNoneOutput(m, tags, words, j);
    forall ls | Labelling(tags, ls, j + 1) ensures SentenceProb(m, tags, words, ls) == 0.0 {
      FinalNoneZero(m, tags, words, j, ls);
    }
    if j == 0 {
      forall other | Labelling(tags, other, 1)
        ensures SentenceProb(m, tags, words, other) <= SentenceProb(m, tags, words, [0])
      {
      }
    }
  }

  /**
    Once it has its tags and words, `viterbi` returns a most probable tagging
    of the sentence (EOS factor included). It fails only when the sentence has
    more than one word and no tagging of positive probability; a one-word
    sentence whose every tagging has probability 0 gets the first tag.
   */
  lemma BestTaggingOptimal(m: Model, tags: seq<string>, words: seq<string>)
    requires ValidTags(m, tags) && NonEmptyWords(words) && |tags| > 0 && |words| > 0
    ensures MostProbable(m, tags, words, BestTagging(m, tags, words))
  {
    var j := |words| - 1;
    var fs := FinalScores(m, tags, ColumnAt(m, tags, words, j).scores);
    if FirstBest(fs).Some? {
      FoundMostProbable(m, tags, words, j, FirstBest(fs).value);
    } else {
      NoneMostProbable(m, tags, words, j);
    }
  }

  /** Every model `train_model` produces can be decoded. */
  lemma TrainedIsDecodable(corpus: seq<seq<string>>)
    requires Train(corpus).Ok?
    ensures Decodable(Train(corpus).value)
  {
    var m := Train(corpus).value;
    TrainedRecordsValid(corpus);
    TrainedTagsKeyed(corpus);
    forall k | k in m.transition.records
      ensures m.transition.records[k].total > 0 && m.transition.records[k].singletons >= 0
      ensures EOS in m.transition.records[k].counts ==> m.transition.records[k].counts[EOS] > 0
    {
      RecordBounds(TransitionKind, m.transition.records[k], EOS);
    }
    forall k | k in m.emission.records
      ensures 0 < m.emission.records[k].total <= m.totalTokens
      ensures m.emission.records[k].capitalised <= m.emission.records[k].total
      ensures m.emission.records[k].singletons >= 0
    {
      RecordBounds(EmissionKind, m.emission.records[k], EOS);
      TrainedTotalWithinTokens(corpus, k);
    }
  }

  /** The tag list is empty exactly when SOS is the only transition key. */
  lemma TagListEmpty(m: Model)
    requires TableShape(m.transition) && SOS in m.transition.records
    ensures TagList(m).value == [] <==> m.transition.records.Keys == {SOS}
  {
    var tags := TagList(m).value;
    TagListKeys(m);
    assert tags != [] ==> tags[0] in m.transition.records && tags[0] != SOS;
    if m.transition.records.Keys != {SOS} {
      var t :| t in m.transition.records.Keys && t != SOS;
      assert t in tags;
    }
  }

  /**
    The exceptions `viterbi` raises before decoding: a model without an SOS
    record fails `tag_list.remove`, and one with no tag besides SOS fails `max`.
   */
  lemma DecodeErrors(m: Model, words: seq<string>)
    requires Decodable(m) && NonEmptyWords(words)
    ensures Decode(m, words) == Err(NoStartRecord) <==> SOS !in m.transition.records
    ensures Decode(m, words) == Err(NoTags) <==> SOS in m.transition.records && m.transition.records.Keys == {SOS}
  {
    if SOS in m.transition.records {
      TagListEmpty(m);
    }
  }

  /**
    With an SOS record and at least one tag, an empty sentence ends on the
    placeholder path, and any other sentence gets a most probable tagging,
    failing only when no tagging of a sentence of several words is possible.
   */
  lemma DecodeOptimal(m: Model, words: seq<string>)
    requires Decodable(m) && NonEmptyWords(words)
    requires SOS in m.transition.records && m.transition.records.Keys != {SOS}
    ensures TagList(m).Ok? && |TagList(m).value| > 0
    ensures |words| == 0 ==> Decode(m, words) == Err(NoPath)
    ensures |words| > 0 ==> MostProbable(m, TagList(m).value, words, Decode(m, words))
  {
    TagListEmpty(m);
    TagListKeys(m);
    if |words| > 0 {
      BestTaggingOptimal(m, TagList(m).value, words);
    }
  }
}
