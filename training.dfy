/**
  Building the transition and emission tables from a tagged corpus
  (`train_model`). A corpus is a sequence of lines, each line the sequence of
  its whitespace-separated `word/tag` tokens.
 */
module Training {
  import opened Outcomes
  import opened Tables

  /** The synthetic previous tag of a line's first token. */
  const SOS: string := "SOS"
  /** The synthetic tag that follows a line's last token. */
  const EOS: string := "EOS"

  datatype TrainError =
    | MissingSeparator(token: string)  // `rsplit` found no '/' and the unpacking into word, tag failed
    | EmptyWord(token: string)          // `key2[0]` on the empty word of a token that starts with '/'

  /** What training persists: both tables and the number of tokens seen. */
  datatype Model = Model(transition: Table, emission: Table, totalTokens: nat)

  /**
    `token.rsplit('/', 1)` unpacked into `word, tag`: the split is at the last
    '/', so the tag never contains one; a token without '/' is an error.
   */
  function SplitToken(token: string): (r: Result<(string, string), TrainError>)
    ensures r.Ok? <==> '/' in token
    ensures r.Ok? ==> r.value.0 + "/" + r.value.1 == token && '/' !in r.value.1
    ensures r.Err? ==> r.error == MissingSeparator(token)
  {
    if |token| == 0 then Err(MissingSeparator(token))
    else
      var init, last := token[..|token| - 1], token[|token| - 1];
      assert token == init + [last];
      if last == '/' then Ok((init, ""))
      else
        match SplitToken(init)
        case Err(_) => Err(MissingSeparator(token))
        case Ok((word, tag)) => Ok((word, tag + [last]))
  }

  /** The split is the only one that puts a '/' between a word and a '/'-free tag. */
  lemma {:induction false} SplitTokenUnique(token: string, word: string, tag: string)
    requires word + "/" + tag == token && '/' !in tag
    ensures SplitToken(token) == Ok((word, tag))
  {
    if tag == [] {
      assert token[..|token| - 1] == word;
    } else {
      var init := token[..|token| - 1];
      var tagInit := tag[..|tag| - 1];
      assert word + "/" + tagInit == init;
      assert tagInit + [tag[|tag| - 1]] == tag;
      SplitTokenUnique(init, word, tagInit);
    }
  }

  /**
    The inner loop of `train_model` over the tokens of one line: each token
    updates the emission table (tag -> word) and then the transition table
    (previous tag -> tag). Yields both tables and the last tag.
   */
  function TrainTokens(tr: Table, em: Table, prev: string, tokens: seq<string>)
    : Result<(Table, Table, string), TrainError>
    decreases |tokens|
  {
    if tokens == [] then Ok((tr, em, prev))
    else
      match SplitToken(tokens[0])
      case Err(e) => Err(e)
      case Ok((word, tag)) =>
        if !Observable(EmissionKind, word) then Err(EmptyWord(tokens[0]))
        else TrainTokens(Observe(tr, TransitionKind, prev, tag), Observe(em, EmissionKind, tag, word), tag, tokens[1..])
  }

  /** One line: its tokens from SOS, then the transition from the last tag to EOS. */
  function TrainLine(m: Model, line: seq<string>): Result<Model, TrainError> {
    match TrainTokens(m.transition, m.emission, SOS, line)
    case Err(e) => Err(e)
    case Ok((tr, em, last)) => Ok(Model(Observe(tr, TransitionKind, last, EOS), em, m.totalTokens + |line|))
  }

  function TrainLines(m: Model, lines: seq<seq<string>>): Result<Model, TrainError>
    decreases |lines|
  {
    if lines == [] then Ok(m)
    else
      match TrainLine(m, lines[0])
      case Err(e) => Err(e)
      case Ok(m') => TrainLines(m', lines[1..])
  }

  const EmptyModel: Model := Model(EmptyTable, EmptyTable, 0)

  /** The model `train_model` writes for `corpus`, or the exception it raises. */
  function Train(corpus: seq<seq<string>>): Result<Model, TrainError> {
    TrainLines(EmptyModel, corpus)
  }

  /** `train_model`: the counting loop over lines, updating both tables in place. */
  method TrainModel(corpus: seq<seq<string>>) returns (r: Result<Model, TrainError>)
    ensures r == Train(corpus)
  {
    var transition := new FrequencyTable(TransitionKind);
    var emission := new FrequencyTable(EmissionKind);
    var totalTokens: nat := 0;
    for i := 0 to |corpus|
      invariant transition.kind == TransitionKind && emission.kind == EmissionKind
      invariant transition.Valid() && emission.Valid()
      invariant Train(corpus) == TrainLines(Model(transition.Contents(), emission.Contents(), totalTokens), corpus[i..])
    {
      assert corpus[i..][0] == corpus[i] && corpus[i..][1..] == corpus[i + 1..];
      var failure;
      failure, totalTokens := TrainLineInPlace(transition, emission, totalTokens, corpus[i]);
      if failure.Some? {
        return Err(failure.value);
      }
    }
    return Ok(Model(transition.Contents(), emission.Contents(), totalTokens));
  }

  /**
    The body of `train_model`'s loop for one line: the tokens from SOS, then
    the transition to EOS, applied to the two tables in place.
   */
  method TrainLineInPlace(transition: FrequencyTable, emission: FrequencyTable, totalTokens: nat, line: seq<string>)
    returns (failure: Option<TrainError>, newTotal: nat)
    requires transition != emission
    requires transition.kind == TransitionKind && emission.kind == EmissionKind
    requires transition.Valid() && emission.Valid()
    modifies transition, emission
    ensures transition.Valid() && emission.Valid()
    ensures var m := TrainLine(Model(old(transition.Contents()), old(emission.Contents()), totalTokens), line);
      && failure == (if m.Err? then Some(m.error) else None)
      && (m.Ok? ==> m.value == Model(transition.Contents(), emission.Contents(), newTotal))
  {
    newTotal := totalTokens + |line|;
    ghost var tr0, em0 := transition.Contents(), emission.Contents();
    var previousTag := SOS;
    for j := 0 to |line|
      invariant TrainTokens(tr0, em0, SOS, line)
             == TrainTokens(transition.Contents(), emission.Contents(), previousTag, line[j..])
      invariant transition.Valid() && emission.Valid()
    {
      assert line[j..][1..] == line[j + 1..];
      var split := SplitToken(line[j]);
      if split.Err? {
        return Some(split.error), newTotal;
      }
      var (word, tag) := split.value;
      var ok := emission.Add(tag, word);
      if !ok {
        return Some(EmptyWord(line[j])), newTotal;
      }
      ok := transition.Add(previousTag, tag);
      previousTag := tag;
    }
    assert line[|line|..] == [];
    var _ := transition.Add(previousTag, EOS);
    failure := None;
  }
}
