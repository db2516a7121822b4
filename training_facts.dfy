/**
  What training guarantees about the tables it builds from a corpus of k
  lines: every record keeps its invariant, the SOS record and the EOS counts
  both count the lines, the totals count the tokens, and every tag seen is an
  outer key of both tables.
 */
module TrainingFacts {
  import opened Outcomes
  import opened Tables
  import opened Training

  /** The tag of a token that splits, the empty string otherwise. */
  function TagOf(token: string): string {
    if SplitToken(token).Ok? then SplitToken(token).value.1 else ""
  }

  /**
    The corpus never uses one of the synthetic tags as a real tag. (The model
    also assumes that no word or tag equals one of the source's reserved
    dictionary keys, by keeping those aggregates in separate fields.)
   */
  predicate NoReservedTags(corpus: seq<seq<string>>) {
    forall i, j :: 0 <= i < |corpus| && 0 <= j < |corpus[i]| ==> TagOf(corpus[i][j]) != SOS && TagOf(corpus[i][j]) != EOS
  }

  /** The aggregates that hold after any number of lines, whatever the tags are. */
  ghost predicate Counted(m: Model, k: nat) {
    && TableShape(m.transition) && TableShape(m.emission)
    && m.totalTokens == SumTotals(m.emission)
    && SumTotals(m.transition) == m.totalTokens + k
    && (forall key :: key in m.transition.records ==> key == SOS || key in m.emission.records)
  }

  /** The sentence-boundary facts after k lines whose tags are not SOS or EOS. */
  ghost predicate Bounded(m: Model, k: nat) {
    && TotalOf(m.transition, SOS) == k
    && SumCounts(m.transition, EOS) == k
    && EOS !in m.transition.records
  }

  ghost predicate ValidModel(m: Model) {
    ValidTable(TransitionKind, m.transition) && ValidTable(EmissionKind, m.emission)
  }

  // ---------------------------------------------------------------- one line's tokens

  /** A line's tokens that train without error: the first one splits, then the rest follow. */
  lemma TrainTokensFirst(tr: Table, em: Table, prev: string, tokens: seq<string>)
    requires tokens != [] && TrainTokens(tr, em, prev, tokens).Ok?
    ensures SplitToken(tokens[0]).Ok?
    ensures var (word, tag) := SplitToken(tokens[0]).value;
      && Observable(EmissionKind, word) && tag == TagOf(tokens[0])
      && TrainTokens(tr, em, prev, tokens)
         == TrainTokens(Observe(tr, TransitionKind, prev, tag), Observe(em, EmissionKind, tag, word), tag, tokens[1..])
  {
  }

  /** A property of every token of a line holds of every token after the first. */
  lemma TailTags(tokens: seq<string>)
    requires tokens != []
    requires forall j :: 0 <= j < |tokens| ==> TagOf(tokens[j]) != SOS && TagOf(tokens[j]) != EOS
    ensures forall j :: 0 <= j < |tokens[1..]| ==> TagOf(tokens[1..][j]) != SOS && TagOf(tokens[1..][j]) != EOS
  {
    forall j | 0 <= j < |tokens[1..]|
      ensures TagOf(tokens[1..][j]) != SOS && TagOf(tokens[1..][j]) != EOS
    {
      assert tokens[1..][j] == tokens[j + 1];
    }
  }

  /** The record invariants survive the tokens of a line. */
  lemma {:induction false} TrainTokensValid(tr: Table, em: Table, prev: string, tokens: seq<string>)
    requires ValidTable(TransitionKind, tr) && ValidTable(EmissionKind, em)
    requires TrainTokens(tr, em, prev, tokens).Ok?
    ensures var (tr', em', _) := TrainTokens(tr, em, prev, tokens).value;
      ValidTable(TransitionKind, tr') && ValidTable(EmissionKind, em')
    decreases |tokens|
  {
    if tokens != [] {
      var (word, tag) := SplitToken(tokens[0]).value;
      ObserveValid(tr, TransitionKind, prev, tag);
      ObserveValid(em, EmissionKind, tag, word);
      TrainTokensValid(Observe(tr, TransitionKind, prev, tag), Observe(em, EmissionKind, tag, word), tag, tokens[1..]);
    }
  }

  /** Each token adds one to the sum of the emission totals and one to the sum of the transition totals. */
  lemma {:induction false} TrainTokensSums(tr: Table, em: Table, prev: string, tokens: seq<string>)
    requires TableShape(tr) && TableShape(em)
    requires prev == SOS || prev in em.records
    requires forall key :: key in tr.records ==> key == SOS || key in em.records
    requires TrainTokens(tr, em, prev, tokens).Ok?
    ensures var (tr', em', last) := TrainTokens(tr, em, prev, tokens).value;
      && TableShape(tr') && TableShape(em')
      && SumTotals(tr') == SumTotals(tr) + |tokens|
      && SumTotals(em') == SumTotals(em) + |tokens|
      && (last == SOS || last in em'.records)
      && (forall key :: key in tr'.records ==> key == SOS || key in em'.records)
    decreases |tokens|
  {
    if tokens != [] {
      var (word, tag) := SplitToken(tokens[0]).value;
      ObserveSums(tr, TransitionKind, prev, tag);
      ObserveSums(em, EmissionKind, tag, word);
      ObserveEffect(tr, TransitionKind, prev, tag);
      ObserveEffect(em, EmissionKind, tag, word);
      TrainTokensSums(Observe(tr, TransitionKind, prev, tag), Observe(em, EmissionKind, tag, word), tag, tokens[1..]);
    }
  }

  /**
    Only the first token of a line leaves SOS, and no token adds to the EOS
    counts, when no tag is SOS or EOS.
   */
  lemma {:induction false} TrainTokensBoundary(tr: Table, em: Table, prev: string, tokens: seq<string>)
    requires TableShape(tr) && prev != EOS && EOS !in tr.records
    requires forall j :: 0 <= j < |tokens| ==> TagOf(tokens[j]) != SOS && TagOf(tokens[j]) != EOS
    requires TrainTokens(tr, em, prev, tokens).Ok?
    ensures var (tr', _, last) := TrainTokens(tr, em, prev, tokens).value;
      && TableShape(tr')
      && TotalOf(tr', SOS) == TotalOf(tr, SOS) + (if tokens != [] && prev == SOS then 1 else 0)
      && SumCounts(tr', EOS) == SumCounts(tr, EOS)
      && EOS !in tr'.records && last != EOS
      && (last == SOS <==> tokens == [] && prev == SOS)
    decreases |tokens|
  {
    if tokens != [] {
      TrainTokensFirst(tr, em, prev, tokens);
      var (word, tag) := SplitToken(tokens[0]).value;
      var tr1, em1 := Observe(tr, TransitionKind, prev, tag), Observe(em, EmissionKind, tag, word);
      ObserveStep(tr, prev, tag);
      TailTags(tokens);
      TrainTokensBoundary(tr1, em1, tag, tokens[1..]);
    }
  }

  /** One transition update seen from the sentence boundaries. */
  lemma ObserveStep(tr: Table, prev: string, tag: string)
    requires TableShape(tr) && prev != EOS && EOS !in tr.records && tag != EOS
    ensures var tr1 := Observe(tr, TransitionKind, prev, tag);
      && TableShape(tr1)
      && TotalOf(tr1, SOS) == TotalOf(tr, SOS) + (if prev == SOS then 1 else 0)
      && SumCounts(tr1, EOS) == SumCounts(tr, EOS)
      && EOS !in tr1.records
  {
    ObserveShape(tr, TransitionKind, prev, tag);
    ObserveCountsSum(tr, TransitionKind, prev, tag, EOS);
    ObserveKeys(tr, TransitionKind, prev, tag);
    ObserveTotals(tr, TransitionKind, prev, tag);
  }

  /** Training a line's tokens only adds outer keys; the previous tag becomes one when a token follows it. */
  lemma {:induction false} TrainTokensGrow(tr: Table, em: Table, prev: string, tokens: seq<string>)
    requires TrainTokens(tr, em, prev, tokens).Ok?
    ensures var (tr', em', last) := TrainTokens(tr, em, prev, tokens).value;
      && (forall key :: key in tr.records ==> key in tr'.records)
      && (forall key :: key in em.records ==> key in em'.records)
      && (tokens != [] ==> prev in tr'.records && last == TagOf(tokens[|tokens| - 1]))
      && (tokens == [] ==> last == prev)
    decreases |tokens|
  {
    if tokens != [] {
      TrainTokensFirst(tr, em, prev, tokens);
      var (word, tag) := SplitToken(tokens[0]).value;
      ObserveKeys(tr, TransitionKind, prev, tag);
      ObserveKeys(em, EmissionKind, tag, word);
      TrainTokensGrow(Observe(tr, TransitionKind, prev, tag), Observe(em, EmissionKind, tag, word), tag, tokens[1..]);
      if |tokens| > 1 {
        assert tokens[|tokens| - 1] == tokens[1..][|tokens[1..]| - 1];
      }
    }
  }

  /** Every tag of the line becomes an emission key, and a transition key unless it is the last tag. */
  lemma {:induction false} TrainTokensTags(tr: Table, em: Table, prev: string, tokens: seq<string>)
    requires TrainTokens(tr, em, prev, tokens).Ok?
    ensures var (tr', em', last) := TrainTokens(tr, em, prev, tokens).value;
      forall j :: 0 <= j < |tokens| ==> TagOf(tokens[j]) in em'.records && (TagOf(tokens[j]) in tr'.records || TagOf(tokens[j]) == last)
    decreases |tokens|
  {
    if tokens != [] {
      TrainTokensFirst(tr, em, prev, tokens);
      var (word, tag) := SplitToken(tokens[0]).value;
      var tr1, em1 := Observe(tr, TransitionKind, prev, tag), Observe(em, EmissionKind, tag, word);
      ObserveKeys(em, EmissionKind, tag, word);
      TrainTokensGrow(tr1, em1, tag, tokens[1..]);
      TrainTokensTags(tr1, em1, tag, tokens[1..]);
      var (tr', em', last) := TrainTokens(tr1, em1, tag, tokens[1..]).value;
      forall j | 1 <= j < |tokens|
        ensures TagOf(tokens[j]) in em'.records && (TagOf(tokens[j]) in tr'.records || TagOf(tokens[j]) == last)
      {
        assert tokens[j] == tokens[1..][j - 1];
      }
    }
  }

  // ---------------------------------------------------------------- lines

  /** A blank line adds exactly one SOS -> EOS transition and nothing else. */
  lemma BlankLine(m: Model)
    ensures TrainLine(m, []) == Ok(Model(Observe(m.transition, TransitionKind, SOS, EOS), m.emission, m.totalTokens))
    ensures Count(TrainLine(m, []).value.transition, SOS, EOS) == Count(m.transition, SOS, EOS) + 1
    ensures forall a, b :: (a, b) != (SOS, EOS) ==>
      Count(TrainLine(m, []).value.transition, a, b) == Count(m.transition, a, b)
  {
    ObserveEffect(m.transition, TransitionKind, SOS, EOS);
  }

  lemma TrainLineValid(m: Model, line: seq<string>)
    requires ValidModel(m) && TrainLine(m, line).Ok?
    ensures ValidModel(TrainLine(m, line).value)
  {
    TrainTokensValid(m.transition, m.emission, SOS, line);
    var (tr, em, last) := TrainTokens(m.transition, m.emission, SOS, line).value;
    ObserveValid(tr, TransitionKind, last, EOS);
  }

  lemma TrainLineCounted(m: Model, k: nat, line: seq<string>)
    requires Counted(m, k) && TrainLine(m, line).Ok?
    ensures Counted(TrainLine(m, line).value, k + 1)
  {
    TrainTokensSums(m.transition, m.emission, SOS, line);
    var (tr, em, last) := TrainTokens(m.transition, m.emission, SOS, line).value;
    ObserveShape(tr, TransitionKind, last, EOS);
    ObserveTotalsSum(tr, TransitionKind, last, EOS);
    ObserveKeys(tr, TransitionKind, last, EOS);
  }

  lemma TrainLineBounded(m: Model, k: nat, line: seq<string>)
    requires TableShape(m.transition) && Bounded(m, k) && TrainLine(m, line).Ok?
    requires forall j :: 0 <= j < |line| ==> TagOf(line[j]) != SOS && TagOf(line[j]) != EOS
    ensures Bounded(TrainLine(m, line).value, k + 1)
  {
    TrainTokensBoundary(m.transition, m.emission, SOS, line);
    var (tr, em, last) := TrainTokens(m.transition, m.emission, SOS, line).value;
    var tr' := Observe(tr, TransitionKind, last, EOS);
    assert TrainLine(m, line).value.transition == tr';
    ObserveSums(tr, TransitionKind, last, EOS);
    ObserveEffect(tr, TransitionKind, last, EOS);
    assert TotalOf(tr', SOS) == TotalOf(tr, SOS) + (if last == SOS then 1 else 0);
  }

  lemma TrainLineKeys(m: Model, line: seq<string>)
    requires TrainLine(m, line).Ok?
    ensures var m' := TrainLine(m, line).value;
      && (forall key :: key in m.transition.records ==> key in m'.transition.records)
      && (forall key :: key in m.emission.records ==> key in m'.emission.records)
      && (forall j :: 0 <= j < |line| ==> TagOf(line[j]) in m'.emission.records && TagOf(line[j]) in m'.transition.records)
  {
    TrainTokensGrow(m.transition, m.emission, SOS, line);
    TrainTokensTags(m.transition, m.emission, SOS, line);
    var (tr, em, last) := TrainTokens(m.transition, m.emission, SOS, line).value;
    ObserveKeys(tr, TransitionKind, last, EOS);
  }

  /** The aggregates, carried over any number of further lines. */
  lemma {:induction false} TrainLinesCounted(m: Model, k: nat, lines: seq<seq<string>>)
    requires Counted(m, k) && TrainLines(m, lines).Ok?
    ensures Counted(TrainLines(m, lines).value, k + |lines|)
    decreases |lines|
  {
    if lines != [] {
      TrainLineCounted(m, k, lines[0]);
      TrainLinesCounted(TrainLine(m, lines[0]).value, k + 1, lines[1..]);
    }
  }

  /** The record invariants, carried over any number of further lines. */
  lemma {:induction false} TrainLinesValid(m: Model, lines: seq<seq<string>>)
    requires ValidModel(m) && TrainLines(m, lines).Ok?
    ensures ValidModel(TrainLines(m, lines).value)
    decreases |lines|
  {
    if lines != [] {
      TrainLineValid(m, lines[0]);
      TrainLinesValid(TrainLine(m, lines[0]).value, lines[1..]);
    }
  }

  /** The sentence-boundary facts, carried over any number of further lines. */
  lemma {:induction false} TrainLinesBounded(m: Model, k: nat, lines: seq<seq<string>>)
    requires Counted(m, k) && Bounded(m, k) && NoReservedTags(lines) && TrainLines(m, lines).Ok?
    ensures Bounded(TrainLines(m, lines).value, k + |lines|)
    decreases |lines|
  {
    if lines != [] {
      assert forall j :: 0 <= j < |lines[0]| ==> TagOf(lines[0][j]) != SOS && TagOf(lines[0][j]) != EOS;
      TrainLineBounded(m, k, lines[0]);
      TrainLineCounted(m, k, lines[0]);
      assert NoReservedTags(lines[1..]) by {
        forall i, j | 0 <= i < |lines[1..]| && 0 <= j < |lines[1..][i]|
          ensures TagOf(lines[1..][i][j]) != SOS && TagOf(lines[1..][i][j]) != EOS
        {
          assert lines[1..][i] == lines[i + 1];
        }
      }
      TrainLinesBounded(TrainLine(m, lines[0]).value, k + 1, lines[1..]);
    }
  }

  /** The outer keys only grow, and every tag of every line becomes one in both tables. */
  lemma {:induction false} TrainLinesKeys(m: Model, lines: seq<seq<string>>)
    requires TrainLines(m, lines).Ok?
    ensures var m' := TrainLines(m, lines).value;
      && (forall key :: key in m.transition.records ==> key in m'.transition.records)
      && (forall key :: key in m.emission.records ==> key in m'.emission.records)
      && (forall i, j :: 0 <= i < |lines| && 0 <= j < |lines[i]| ==>
            TagOf(lines[i][j]) in m'.emission.records && TagOf(lines[i][j]) in m'.transition.records)
    decreases |lines|
  {
    if lines != [] {
      var m1 := TrainLine(m, lines[0]).value;
      TrainLineKeys(m, lines[0]);
      TrainLinesKeys(m1, lines[1..]);
      var m' := TrainLines(m1, lines[1..]).value;
      forall i, j | 0 <= i < |lines| && 0 <= j < |lines[i]|
        ensures TagOf(lines[i][j]) in m'.emission.records && TagOf(lines[i][j]) in m'.transition.records
      {
        if i > 0 {
          assert lines[i] == lines[1..][i - 1];
        }
      }
    }
  }

  lemma EmptyModelFacts()
    ensures Counted(EmptyModel, 0) && Bounded(EmptyModel, 0) && ValidModel(EmptyModel)
  {
  }

  // ---------------------------------------------------------------- the corpus

  /**
    After training, every record of both tables keeps its invariant: total is
    the sum of its counts, `singletons` is the number of keys counted once, and
    an emission record's capitalised count is the share of capitalised words.
   */
  lemma TrainedRecordsValid(corpus: seq<seq<string>>)
    requires Train(corpus).Ok?
    ensures ValidModel(Train(corpus).value)
  {
    EmptyModelFacts();
    TrainLinesValid(EmptyModel, corpus);
  }

  /**
    `total_tokens` is the sum of the emission totals, and the transition totals
    add up to one more than that per line (the EOS transition).
   */
  lemma TrainedTotals(corpus: seq<seq<string>>)
    requires Train(corpus).Ok?
    ensures var m := Train(corpus).value;
      && m.totalTokens == SumTotals(m.emission)
      && SumTotals(m.transition) == m.totalTokens + |corpus|
  {
    EmptyModelFacts();
    TrainLinesCounted(EmptyModel, 0, corpus);
  }

  /**
    With k lines and no synthetic tag used as a real one: the SOS record's total
    is k, the EOS counts over all previous tags add up to k, and EOS is never an
    outer key.
   */
  lemma TrainedSentenceBoundaries(corpus: seq<seq<string>>)
    requires Train(corpus).Ok? && NoReservedTags(corpus)
    ensures var m := Train(corpus).value;
      && TotalOf(m.transition, SOS) == |corpus|
      && SumCounts(m.transition, EOS) == |corpus|
      && EOS !in m.transition.records
  {
    EmptyModelFacts();
    TrainLinesBounded(EmptyModel, 0, corpus);
  }

  /**
    Every tag seen in training is an outer key of both tables, and every
    transition key other than SOS is a tag with an emission record.
   */
  lemma TrainedTagsKeyed(corpus: seq<seq<string>>)
    requires Train(corpus).Ok?
    ensures var m := Train(corpus).value;
      && (forall i, j :: 0 <= i < |corpus| && 0 <= j < |corpus[i]| ==>
            TagOf(corpus[i][j]) in m.emission.records && TagOf(corpus[i][j]) in m.transition.records)
      && (forall key :: key in m.transition.records && key != SOS ==> key in m.emission.records)
      && (|corpus| > 0 ==> SOS in m.transition.records)
  {
    EmptyModelFacts();
    TrainLinesCounted(EmptyModel, 0, corpus);
    TrainLinesKeys(EmptyModel, corpus);
    if |corpus| > 0 {
      var m1 := TrainLine(EmptyModel, corpus[0]).value;
      TrainLineKeys(EmptyModel, corpus[0]);
      TrainTokensGrow(EmptyTable, EmptyTable, SOS, corpus[0]);
      TrainTokensTags(EmptyTable, EmptyTable, SOS, corpus[0]);
      var (tr, em, last) := TrainTokens(EmptyTable, EmptyTable, SOS, corpus[0]).value;
      ObserveEffect(tr, TransitionKind, last, EOS);
      assert SOS in m1.transition.records;
      assert Counted(m1, 1) by {
        TrainLineCounted(EmptyModel, 0, corpus[0]);
      }
      TrainLinesKeys(m1, corpus[1..]);
    }
  }
}
