/**
  The Viterbi decoder (`viterbi`). Scores are exact probabilities: where the
  source adds logarithms this model multiplies, and `None` stands for the
  source's `-math.inf`. A path is `None` where the source leaves its
  placeholder `0`.
 */
module Decoder {
  import opened Outcomes
  import opened Tables
  import opened Training
  import opened Estimator

  datatype DecodeError =
    | NoStartRecord  // `tag_list.remove(SOS)` raises: the model has no SOS record
    | NoTags         // `max` of an empty score list raises: no tag besides SOS
    | NoPath         // the chosen path is the placeholder 0 and `' '.join` raises

  /**
    What the decoder relies on in the model it loads; every trained model has
    it. Every record has a positive total, every transition key other than SOS
    has an emission record, the aggregates are non-negative and within their
    totals, and an EOS count, when present, is positive.
   */
  predicate Decodable(m: Model) {
    && TableShape(m.transition)
    && (forall k :: k in m.transition.records ==>
          m.transition.records[k].total > 0 && m.transition.records[k].singletons >= 0 &&
          (EOS in m.transition.records[k].counts ==> m.transition.records[k].counts[EOS] > 0))
    && (forall k :: k in m.transition.records && k != SOS ==> k in m.emission.records)
    && (forall k :: k in m.emission.records ==>
          0 < m.emission.records[k].total <= m.totalTokens &&
          m.emission.records[k].capitalised <= m.emission.records[k].total &&
          m.emission.records[k].singletons >= 0)
  }

  /** P(curr | prev) of a decodable model. */
  function Trans(m: Model, prev: string, curr: string): (p: real)
    requires Decodable(m) && prev in m.transition.records
    ensures p >= 0.0
  {
    TransitionProb(m, prev, curr).value
  }

  /** P(word | tag) of a decodable model. */
  function Emit(m: Model, tag: string, word: string): (p: real)
    requires Decodable(m) && tag in m.emission.records && |word| > 0
    ensures p >= 0.0
  {
    EmissionProb(m, tag, word).value
  }

  /** The position of the first occurrence of `x`. */
  function IndexOf(s: seq<string>, x: string): (i: nat)
    requires x in s
    ensures i < |s| && s[i] == x && x !in s[..i]
  {
    if s[0] == x then 0 else assert s == [s[0]] + s[1..]; 1 + IndexOf(s[1..], x)
  }

  /**
    `list(transition_frequency.keys())` with SOS removed: putting SOS back at
    its place gives the transition keys in their insertion order.
   */
  function TagList(m: Model): (r: Result<seq<string>, DecodeError>)
    requires TableShape(m.transition)
    ensures r.Ok? <==> SOS in m.transition.records
    ensures r.Err? ==> r.error == NoStartRecord
    ensures r.Ok? ==> exists i :: 0 <= i <= |r.value| && m.transition.keys == r.value[..i] + [SOS] + r.value[i..]
  {
    var keys := m.transition.keys;
    if SOS !in keys then Err(NoStartRecord)
    else
      var i := IndexOf(keys, SOS);
      var tags := keys[..i] + keys[i + 1..];
      Removed(keys, i);
      Ok(tags)
  }

  /** Dropping the element at i and putting it back at i gives the sequence again. */
  lemma Removed(s: seq<string>, i: nat)
    requires i < |s|
    ensures var rest := s[..i] + s[i + 1..];
      i <= |rest| && s == rest[..i] + [s[i]] + rest[i..]
  {
    var rest := s[..i] + s[i + 1..];
    assert rest[..i] == s[..i];
    assert rest[i..] == s[i + 1..];
    assert s == s[..i] + [s[i]] + s[i + 1..];
  }

  /** The tag list holds every transition key except SOS, each once. */
  lemma TagListKeys(m: Model)
    requires TableShape(m.transition) && TagList(m).Ok?
    ensures var tags := TagList(m).value;
      && (forall t :: t in tags <==> t in m.transition.records && t != SOS)
      && (forall i, j :: 0 <= i < j < |tags| ==> tags[i] != tags[j])
  {
    var tags := TagList(m).value;
    var i :| 0 <= i <= |tags| && m.transition.keys == tags[..i] + [SOS] + tags[i..];
    Without(m.transition.keys, tags, i, SOS);
  }

  lemma Without(keys: seq<string>, rest: seq<string>, i: nat, x: string)
    requires i <= |rest| && keys == rest[..i] + [x] + rest[i..]
    requires forall a, b :: 0 <= a < b < |keys| ==> keys[a] != keys[b]
    ensures forall t :: t in rest <==> t in keys && t != x
    ensures forall a, b :: 0 <= a < b < |rest| ==> rest[a] != rest[b]
  {
    assert forall a :: 0 <= a < |rest| ==> rest[a] == keys[if a < i then a else a + 1];
    assert keys[i] == x;
    forall t | t in rest ensures t in keys && t != x {
      var a :| 0 <= a < |rest| && rest[a] == t;
      assert keys[if a < i then a else a + 1] == t;
    }
    forall t | t in keys && t != x ensures t in rest {
      var a :| 0 <= a < |keys| && keys[a] == t;
      assert rest[if a < i then a else a - 1] == t;
    }
  }

  /** A tag list the decoder can score: tags of the model, none of them SOS. */
  predicate ValidTags(m: Model, tags: seq<string>) {
    && Decodable(m)
    && SOS in m.transition.records
    && (forall k :: 0 <= k < |tags| ==> tags[k] in m.transition.records && tags[k] != SOS)
  }

  /** Per tag, the best score so far and the path that achieves it. */
  datatype Column = Column(scores: seq<Option<real>>, paths: seq<Option<seq<string>>>)

  predicate Fits(col: Column, tags: seq<string>) {
    |col.scores| == |tags| && |col.paths| == |tags|
  }

  /** The output token `f'{word}/{tag}'`. */
  function Token(word: string, tag: string): string {
    word + "/" + tag
  }

  /** A probability times the EOS factor. */
  function Terminated(p: real, eos: real): real {
    p * eos
  }

  /** A score times a positive factor; an impossible score stays impossible (`-inf + x`). */
  function Times(s: Option<real>, f: real): Option<real> {
    match s
    case None => None
    case Some(p) => Some(Terminated(p, f))
  }

  /** A probability extended by one emission and one transition factor. */
  function Scale(p: real, emission: real, transition: real): real {
    p * (emission * transition)
  }

  /** A score extended by one emission and one transition factor. */
  function Weighted(s: Option<real>, emission: real, transition: real): Option<real> {
    match s
    case None => None
    case Some(p) => Some(Scale(p, emission, transition))
  }

  /** `a > b` on scores, with `None` below every probability. */
  predicate Better(a: Option<real>, b: Option<real>) {
    a.Some? && (b.None? || a.value > b.value)
  }

  /**
    The first index holding the best score, scanning left to right and moving
    only on a strictly better score; `None` when every score is impossible.
   */
  function FirstBest(s: seq<Option<real>>): (r: Option<nat>)
    ensures r.None? <==> forall i :: 0 <= i < |s| ==> s[i].None?
    ensures r.Some? ==> r.value < |s| && s[r.value].Some?
    ensures r.Some? ==> forall i :: 0 <= i < |s| ==> !Better(s[i], s[r.value])
    ensures r.Some? ==> forall i :: 0 <= i < r.value ==> Better(s[r.value], s[i])
  {
    if s == [] then None
    else
      var b := FirstBest(s[..|s| - 1]);
      assert forall i :: 0 <= i < |s| - 1 ==> s[..|s| - 1][i] == s[i];
      if Better(s[|s| - 1], if b.Some? then s[b.value] else None) then Some(|s| - 1) else b
  }

  /** One more score: the first best moves to it only when it is strictly better. */
  lemma FirstBestNext(s: seq<Option<real>>, x: nat)
    requires x < |s|
    ensures var b := FirstBest(s[..x]);
      FirstBest(s[..x + 1]) == if Better(s[x], if b.Some? then s[b.value] else None) then Some(x) else b
  {
    assert s[..x + 1][..x] == s[..x];
  }

  /** `max_log_prob.index(max(max_log_prob))`: the first best index, 0 when all are impossible. */
  function Selected(s: seq<Option<real>>): nat {
    match FirstBest(s)
    case None => 0
    case Some(i) => i
  }

  function Extend(path: Option<seq<string>>, token: string): Option<seq<string>> {
    match path
    case None => None
    case Some(p) => Some(p + [token])
  }

  /**
    Position 0: P(t | SOS) * P(w0 | t), impossible when that product is 0; the
    path is `[w0/t]` either way.
   */
  function InitScore(m: Model, tag: string, w: string): Option<real>
    requires Decodable(m) && SOS in m.transition.records && tag in m.transition.records && tag != SOS && |w| > 0
  {
    var t := Trans(m, SOS, tag);
    var e := Emit(m, tag, w);
    if t > 0.0 && e > 0.0 then Some(t * e) else None
  }

  /** For probabilities, the product is positive exactly when both factors are. */
  lemma PositiveProduct(x: real, y: real)
    requires x >= 0.0 && y >= 0.0
    ensures x * y > 0.0 <==> x > 0.0 && y > 0.0
  {
    if x == 0.0 || y == 0.0 {
      assert x * y == 0.0;
    }
  }

  function InitColumn(m: Model, tags: seq<string>, w: string): (col: Column)
    requires ValidTags(m, tags) && |w| > 0
    ensures Fits(col, tags)
  {
    Column(
      seq(|tags|, k requires 0 <= k < |tags| => InitScore(m, tags[k], w)),
      seq(|tags|, k requires 0 <= k < |tags| => Some([Token(w, tags[k])])))
  }

  /**
    The score previous tag `tags[x]` would give current tag `tags[i]`:
    impossible where the transition is 0 or the previous score is impossible.
   */
  function Candidate(m: Model, tags: seq<string>, col: Column, w: string, i: nat, x: nat): Option<real>
    requires ValidTags(m, tags) && Fits(col, tags) && i < |tags| && x < |tags| && |w| > 0
  {
    var t := Trans(m, tags[x], tags[i]);
    if t == 0.0 then None else Weighted(col.scores[x], Emit(m, tags[i], w), t)
  }

  lemma CandidateIs(m: Model, tags: seq<string>, col: Column, w: string, i: nat, x: nat, emission: real, transition: real)
    requires ValidTags(m, tags) && Fits(col, tags) && i < |tags| && x < |tags| && |w| > 0
    requires emission == Emit(m, tags[i], w) && transition == Trans(m, tags[x], tags[i])
    ensures Candidate(m, tags, col, w, i, x) == if transition == 0.0 then None else Weighted(col.scores[x], emission, transition)
  {
  }

  function Candidates(m: Model, tags: seq<string>, col: Column, w: string, i: nat): (c: seq<Option<real>>)
    requires ValidTags(m, tags) && Fits(col, tags) && i < |tags| && |w| > 0
    ensures |c| == |tags|
  {
    seq(|tags|, x requires 0 <= x < |tags| => Candidate(m, tags, col, w, i, x))
  }

  /** The previous tag chosen for `tags[i]`, `None` when the cell stays impossible. */
  function Back(m: Model, tags: seq<string>, col: Column, w: string, i: nat): (b: Option<nat>)
    requires ValidTags(m, tags) && Fits(col, tags) && i < |tags| && |w| > 0
    ensures b.Some? ==> b.value < |tags|
  {
    if Emit(m, tags[i], w) == 0.0 then None else FirstBest(Candidates(m, tags, col, w, i))
  }

  function CellScore(m: Model, tags: seq<string>, col: Column, w: string, i: nat): Option<real>
    requires ValidTags(m, tags) && Fits(col, tags) && i < |tags| && |w| > 0
  {
    match Back(m, tags, col, w, i)
    case None => None
    case Some(x) => Candidate(m, tags, col, w, i, x)
  }

  function CellPath(m: Model, tags: seq<string>, col: Column, w: string, i: nat): Option<seq<string>>
    requires ValidTags(m, tags) && Fits(col, tags) && i < |tags| && |w| > 0
  {
    match Back(m, tags, col, w, i)
    case None => None
    case Some(x) => Extend(col.paths[x], Token(w, tags[i]))
  }

  /** A tag that cannot emit the word gets no score and no path. */
  lemma SilentCell(m: Model, tags: seq<string>, col: Column, w: string, i: nat)
    requires ValidTags(m, tags) && Fits(col, tags) && i < |tags| && |w| > 0
    requires Emit(m, tags[i], w) == 0.0
    ensures CellScore(m, tags, col, w, i) == None && CellPath(m, tags, col, w, i) == None
  {
  }

  /** One position of the recurrence. */
  function StepColumn(m: Model, tags: seq<string>, col: Column, w: string): (col': Column)
    requires ValidTags(m, tags) && Fits(col, tags) && |w| > 0
    ensures Fits(col', tags)
  {
    Column(
      seq(|tags|, i requires 0 <= i < |tags| => CellScore(m, tags, col, w, i)),
      seq(|tags|, i requires 0 <= i < |tags| => CellPath(m, tags, col, w, i)))
  }

  predicate NonEmptyWords(words: seq<string>) {
    forall i :: 0 <= i < |words| ==> |words[i]| > 0
  }

  /** The column after position `j`. */
  function ColumnAt(m: Model, tags: seq<string>, words: seq<string>, j: nat): (col: Column)
    requires ValidTags(m, tags) && NonEmptyWords(words) && j < |words|
    ensures Fits(col, tags)
  {
    if j == 0 then InitColumn(m, tags, words[0])
    else StepColumn(m, tags, ColumnAt(m, tags, words, j - 1), words[j])
  }

  /** P(EOS | tag), or 0.001 when EOS never followed the tag. */
  function EosFactor(m: Model, tag: string): (f: real)
    requires Decodable(m) && tag in m.transition.records
    ensures f > 0.0
  {
    var rec := m.transition.records[tag];
    if EOS in rec.counts then rec.counts[EOS] as real / rec.total as real else 0.001
  }

  function FinalScores(m: Model, tags: seq<string>, scores: seq<Option<real>>): (s: seq<Option<real>>)
    requires ValidTags(m, tags) && |scores| == |tags|
    ensures |s| == |tags|
  {
    seq(|tags|, k requires 0 <= k < |tags| => Times(scores[k], EosFactor(m, tags[k])))
  }

  /** The tagged sentence `viterbi` returns for `words`, or the exception it raises. */
  function Decode(m: Model, words: seq<string>): Result<seq<string>, DecodeError>
    requires Decodable(m) && NonEmptyWords(words)
  {
    match TagList(m)
    case Err(e) => Err(e)
    case Ok(tags) =>
      TagListKeys(m);
      BestTagging(m, tags, words)
  }

  /** What `viterbi` returns once it has its tag list. */
  function BestTagging(m: Model, tags: seq<string>, words: seq<string>): Result<seq<string>, DecodeError>
    requires ValidTags(m, tags) && NonEmptyWords(words)
  {
    if |tags| == 0 then Err(NoTags)
    else if |words| == 0 then Err(NoPath)
    else
      var col := ColumnAt(m, tags, words, |words| - 1);
      match col.paths[Selected(FinalScores(m, tags, col.scores))]
      case None => Err(NoPath)
      case Some(p) => Ok(p)
  }

  /**
    `viterbi`: the dynamic programme over positions and tags, keeping a score
    array and a path array, replacing both after each position, multiplying
    in the EOS factor and taking the first best index.
   */
  method Viterbi(m: Model, tokens: seq<string>) returns (r: Result<seq<string>, DecodeError>)
    requires Decodable(m) && NonEmptyWords(tokens)
    ensures r == Decode(m, tokens)
  {
    var tagList := TagList(m);
    if tagList.Err? {
      return Err(tagList.error);
    }
    TagListKeys(m);
    r := Search(m, tagList.value, tokens);
  }

  /** `viterbi` after the tag list: the loop over positions, the EOS factors and the choice. */
  method Search(m: Model, tags: seq<string>, tokens: seq<string>) returns (r: Result<seq<string>, DecodeError>)
    requires ValidTags(m, tags) && NonEmptyWords(tokens)
    ensures r == BestTagging(m, tags, tokens)
  {
    var n := |tags|;
    var maxProb, maxPaths := Forward(m, tags, tokens);
    ghost var last := Column(maxProb[..], maxPaths[..]);
    TerminateInPlace(m, tags, maxProb);
    if n == 0 {
      return Err(NoTags);
    }
    var best := SelectBest(maxProb);
    assert maxPaths[..] == last.paths;
    if maxPaths[best].None? {
      return Err(NoPath);
    }
    return Ok(maxPaths[best].value);
  }

  /**
    The loop over positions: after it, the arrays hold the column of the last
    position, or the initial placeholders when there is no token. The source's
    `idx == 0` branch, which initialises and continues, is the first position
    here, before the loop over the remaining ones.
   */
  method Forward(m: Model, tags: seq<string>, tokens: seq<string>)
    returns (maxProb: array<Option<real>>, maxPaths: array<Option<seq<string>>>)
    requires ValidTags(m, tags) && NonEmptyWords(tokens)
    ensures fresh(maxProb) && fresh(maxPaths)
    ensures maxProb.Length == |tags| && maxPaths.Length == |tags|
    ensures |tokens| == 0 ==> forall k :: 0 <= k < |tags| ==> maxProb[k] == Some(1.0) && maxPaths[k].None?
    ensures |tokens| > 0 ==> var last := ColumnAt(m, tags, tokens, |tokens| - 1);
      maxProb[..] == last.scores && maxPaths[..] == last.paths
  {
    var n := |tags|;
    maxProb := new Option<real>[n](_ => Some(1.0));
    maxPaths := new Option<seq<string>>[n](_ => None);
    if |tokens| == 0 {
      return;
    }
    InitInPlace(m, tags, maxProb, maxPaths, tokens[0]);
    ghost var col := InitColumn(m, tags, tokens[0]);
    for idx := 1 to |tokens|
      invariant fresh(maxProb) && fresh(maxPaths)
      invariant maxProb.Length == n && maxPaths.Length == n
      invariant col == ColumnAt(m, tags, tokens, idx - 1)
      invariant maxProb[..] == col.scores && maxPaths[..] == col.paths
    {
      var word := tokens[idx];
      assert |word| > 0;
      ghost var next := StepColumn(m, tags, col, word);
      assert next == ColumnAt(m, tags, tokens, idx);
      assert Column(maxProb[..], maxPaths[..]) == col;
      maxProb, maxPaths := StepInPlace(m, tags, maxProb, maxPaths, word);
      col := next;
    }
  }

  /** The first position: every score from SOS, every path the one-token path. */
  method InitInPlace(m: Model, tags: seq<string>, maxProb: array<Option<real>>, maxPaths: array<Option<seq<string>>>, word: string)
    requires ValidTags(m, tags) && |word| > 0
    requires maxProb.Length == maxPaths.Length == |tags|
    modifies maxProb, maxPaths
    ensures maxProb[..] == InitColumn(m, tags, word).scores && maxPaths[..] == InitColumn(m, tags, word).paths
  {
    ghost var init := InitColumn(m, tags, word);
    for k := 0 to |tags|
      invariant forall j :: 0 <= j < k ==> maxProb[j] == init.scores[j] && maxPaths[j] == init.paths[j]
    {
      var transition := Trans(m, SOS, tags[k]);
      var emission := Emit(m, tags[k], word);
      var score := if emission * transition > 0.0 then Some(transition * emission) else None;
      PositiveProduct(emission, transition);
      assert score.Some? <==> InitScore(m, tags[k], word).Some?;
      assert score.Some? ==> score.value == InitScore(m, tags[k], word).value;
      maxProb[k] := score;
      maxPaths[k] := Some([Token(word, tags[k])]);
      assert maxProb[k] == init.scores[k];
      assert maxPaths[k] == init.paths[k];
    }
    assert maxProb[..] == init.scores && maxPaths[..] == init.paths;
  }

  /** One position of the recurrence: fills fresh arrays from the previous column. */
  method StepInPlace(m: Model, tags: seq<string>, maxProb: array<Option<real>>, maxPaths: array<Option<seq<string>>>, word: string)
    returns (tempProb: array<Option<real>>, tempPath: array<Option<seq<string>>>)
    requires ValidTags(m, tags) && |word| > 0
    requires maxProb.Length == maxPaths.Length == |tags|
    ensures fresh(tempProb) && fresh(tempPath)
    ensures tempProb.Length == tempPath.Length == |tags|
    ensures var next := StepColumn(m, tags, Column(maxProb[..], maxPaths[..]), word);
      tempProb[..] == next.scores && tempPath[..] == next.paths
  {
    tempProb := new Option<real>[|tags|](_ => None);
    tempPath := new Option<seq<string>>[|tags|](_ => None);
    ghost var col := Column(maxProb[..], maxPaths[..]);
    for i := 0 to |tags|
      invariant maxProb[..] == col.scores && maxPaths[..] == col.paths
      invariant forall j :: 0 <= j < i ==> tempProb[j] == CellScore(m, tags, col, word, j) && tempPath[j] == CellPath(m, tags, col, word, j)
      invariant forall j :: i <= j < |tags| ==> tempProb[j].None? && tempPath[j].None?
    {
      FillCell(m, tags, maxProb, maxPaths, tempProb, tempPath, word, i);
    }
    ghost var next := StepColumn(m, tags, col, word);
    assert tempProb[..] == next.scores;
    assert tempPath[..] == next.paths;
  }

  /** The cell of current tag `tags[i]`: left impossible when the tag cannot emit the word. */
  method FillCell(m: Model, tags: seq<string>, maxProb: array<Option<real>>, maxPaths: array<Option<seq<string>>>,
                  tempProb: array<Option<real>>, tempPath: array<Option<seq<string>>>, word: string, i: nat)
    requires ValidTags(m, tags) && |word| > 0 && i < |tags|
    requires maxProb.Length == maxPaths.Length == tempProb.Length == tempPath.Length == |tags|
    requires tempProb != maxProb && tempPath != maxPaths
    requires tempProb[i].None? && tempPath[i].None?
    modifies tempProb, tempPath
    ensures forall j :: 0 <= j < |tags| && j != i ==> tempProb[j] == old(tempProb[j]) && tempPath[j] == old(tempPath[j])
    ensures tempProb[i] == CellScore(m, tags, Column(maxProb[..], maxPaths[..]), word, i)
    ensures tempPath[i] == CellPath(m, tags, Column(maxProb[..], maxPaths[..]), word, i)
  {
    var emission := Emit(m, tags[i], word);
    if emission == 0.0 {
      SilentCell(m, tags, Column(maxProb[..], maxPaths[..]), word, i);
      return;
    }
    tempProb[i], tempPath[i] := RelaxCell(m, tags, maxProb, maxPaths, word, i, emission);
  }

  /**
    The inner loop over previous tags for current tag `tags[i]`, whose emission
    is non-zero: the running best of `temp_prob_arr[i]` and `temp_path_arr[i]`,
    kept in two variables until the cell is written.
   */
  method RelaxCell(m: Model, tags: seq<string>, maxProb: array<Option<real>>, maxPaths: array<Option<seq<string>>>,
                   word: string, i: nat, emission: real)
    returns (score: Option<real>, path: Option<seq<string>>)
    requires ValidTags(m, tags) && |word| > 0 && i < |tags|
    requires maxProb.Length == maxPaths.Length == |tags|
    requires emission == Emit(m, tags[i], word) && emission != 0.0
    ensures score == CellScore(m, tags, Column(maxProb[..], maxPaths[..]), word, i)
    ensures path == CellPath(m, tags, Column(maxProb[..], maxPaths[..]), word, i)
  {
    ghost var col := Column(maxProb[..], maxPaths[..]);
    ghost var cands := Candidates(m, tags, col, word, i);
    ghost var best: Option<nat> := None;
    score, path := None, None;
    var n := |tags|;
    for x := 0 to n
      invariant best == FirstBest(cands[..x])
      invariant best.None? ==> score.None? && path.None?
      invariant best.Some? ==> best.value < x && score == cands[best.value]
      invariant best.Some? ==> path == Extend(col.paths[best.value], Token(word, tags[i]))
    {
      FirstBestNext(cands, x);
      var transition := Trans(m, tags[x], tags[i]);
      CandidateIs(m, tags, col, word, i, x, emission, transition);
      if transition == 0.0 {
        continue;
      }
      var candidate := Weighted(maxProb[x], emission, transition);
      if Better(candidate, score) {
        score := candidate;
        path := Extend(maxPaths[x], Token(word, tags[i]));
        best := Some(x);
      }
    }
    assert cands[..n] == cands;
  }

  /** Multiplies every final score by the tag's EOS factor. */
  method TerminateInPlace(m: Model, tags: seq<string>, maxProb: array<Option<real>>)
    requires ValidTags(m, tags) && maxProb.Length == |tags|
    modifies maxProb
    ensures maxProb[..] == FinalScores(m, tags, old(maxProb[..]))
  {
    for k := 0 to |tags|
      invariant forall j :: 0 <= j < k ==> maxProb[j] == Times(old(maxProb[j]), EosFactor(m, tags[j]))
      invariant forall j :: k <= j < |tags| ==> maxProb[j] == old(maxProb[j])
    {
      maxProb[k] := Times(maxProb[k], EosFactor(m, tags[k]));
    }
  }

  /** `max_log_prob.index(max(max_log_prob))`. */
  method SelectBest(scores: array<Option<real>>) returns (best: nat)
    requires scores.Length > 0
    ensures best == Selected(scores[..])
  {
    best := 0;
    for k := 1 to scores.Length
      invariant best == Selected(scores[..k])
    {
      assert scores[..k + 1][..k] == scores[..k];
      if Better(scores[k], scores[best]) {
        best := k;
      }
    }
    assert scores[..scores.Length] == scores[..];
  }
}
