/** What the `start` case of src/app/features/MemoryGame/gameReducer.ts guarantees: where a
    sequence game goes on, when it stops, and what options either mode offers. */
module GameReducerFacts {
  import opened Wrappers
  import opened Letters
  import opened GameTypes
  import opened UniqueNumbers
  import opened RandomOrder
  import opened MemoryGameReducer
  import ThaiAlphabet

  /** A sequence start without a right step prompts the first catalogue entry. */
  lemma StartSequenceFresh(catalogue: seq<Letter>, state: GameState, payload: GameSettings, draws: Draws)
    requires payload.gameMode == Sequence && catalogue != []
    requires forall k | 0 <= k < |state.steps| :: !state.steps[k].correct
    ensures var r := Start(catalogue, state, payload, draws);
      r.Success? ==> r.value.step.Some? && r.value.step.value.prompt == Some(catalogue[0])
  {
  }

  /** A sequence start after a right step whose prompt is the `i`-th catalogue entry
      prompts the `(i+1)`-th entry, or, when the `i`-th entry is the last, stops the game
      and clears the step and the steps, keeping the settings. */
  lemma StartSequenceAfter(catalogue: seq<Letter>, state: GameState, payload: GameSettings, draws: Draws, i: nat)
    requires DistinctSymbols(catalogue) && payload.gameMode == Sequence
    requires i < |catalogue| && LastCorrectIndex(state.steps) >= 0
    requires state.steps[LastCorrectIndex(state.steps)].prompt == Some(catalogue[i])
    ensures var r := Start(catalogue, state, payload, draws);
      && (i + 1 == |catalogue| ==> r == Success(state.(step := None, steps := [], started := false)))
      && (i + 1 < |catalogue| && r.Success? ==>
            r.value.step.Some? && r.value.step.value.prompt == Some(catalogue[i + 1]))
  {
    FindOwnSymbol(catalogue, i);
  }

  /** Distinct numbers into a distinct-symbol list pick entries with distinct symbols. */
  lemma PickLettersDistinct(letters: seq<Letter>, numbers: seq<nat>)
    requires DistinctSymbols(letters)
    requires NoDuplicates(numbers) && AllBelow(numbers, |letters|)
    ensures DistinctSymbols(PickLetters(letters, numbers))
  {
    var r := PickLetters(letters, numbers);
    forall i, j | 0 <= i < j < |r| ensures r[i].symbol != r[j].symbol {
      if numbers[i] > numbers[j] {
        assert letters[numbers[j]].symbol != letters[numbers[i]].symbol;
      }
    }
  }

  /** Entries drawn from the others, then the prompt: distinct symbols, all from the
      catalogue. */
  lemma PromptAndOthers(catalogue: seq<Letter>, prompt: Letter, numbers: seq<nat>)
    requires DistinctSymbols(catalogue) && prompt in catalogue
    requires NoDuplicates(numbers) && AllBelow(numbers, |WithoutSymbol(catalogue, prompt.symbol)|)
    ensures var unordered := PickLetters(WithoutSymbol(catalogue, prompt.symbol), numbers) + [prompt];
      DistinctSymbols(unordered) && forall x | x in unordered :: x in catalogue
  {
    var available := WithoutSymbol(catalogue, prompt.symbol);
    WithoutSymbolDistinct(catalogue, prompt.symbol);
    var picked := PickLetters(available, numbers);
    PickLettersDistinct(available, numbers);
    forall y | y in picked ensures y.symbol != prompt.symbol {
    }
    DistinctSymbolsSnoc(picked, prompt);
  }

  /** Appending an entry whose symbol a distinct-symbol list lacks keeps it distinct. */
  lemma DistinctSymbolsSnoc(xs: seq<Letter>, x: Letter)
    requires DistinctSymbols(xs)
    requires forall y | y in xs :: y.symbol != x.symbol
    ensures DistinctSymbols(xs + [x])
  {
    var r := xs + [x];
    forall i, j | 0 <= i < j < |r| ensures r[i].symbol != r[j].symbol {
      assert r[i] == xs[i];
    }
  }

  /** The options of a sequence start for a catalogue entry: that entry once and
      `count - 1` other distinct catalogue entries; only too large a count throws. */
  lemma SequenceOptionsShape(catalogue: seq<Letter>, prompt: Letter, count: int, draws: Draws)
    requires DistinctSymbols(catalogue) && prompt in catalogue
    ensures var r := SequenceOptions(catalogue, prompt, count, draws);
      && (r.Failure? <==> count > |catalogue|)
      && (r.Success? ==>
            && |r.value| == (if count <= 1 then 1 else count)
            && prompt in r.value
            && DistinctSymbols(r.value)
            && forall k | 0 <= k < |r.value| :: r.value[k] in catalogue)
  {
    var i :| 0 <= i < |catalogue| && catalogue[i] == prompt;
    FindOwnSymbol(catalogue, i);
    WithoutSymbolLength(catalogue, prompt.symbol);
    var available := WithoutSymbol(catalogue, prompt.symbol);
    var numbers := GenerateUniqueRandomNumbers(count - 1, |available|, draws.unique);
    if numbers.Success? {
      var unordered := PickLetters(available, numbers.value) + [prompt];
      PromptAndOthers(catalogue, prompt, numbers.value);
      ReorderKeepsDistinct(unordered, draws.order, (l: Letter) => l.symbol);
      ReorderMembers(unordered, draws.order);
    }
  }

  /** A sequence start that has an entry to prompt offers that prompt once and
      `numberOfOptions - 1` (default 3) other distinct catalogue entries, and only throws
      when the catalogue is too small for that. */
  lemma StartSequenceOptions(catalogue: seq<Letter>, state: GameState, payload: GameSettings, draws: Draws)
    requires DistinctSymbols(catalogue) && payload.gameMode == Sequence
    requires NextIndex(catalogue, state.steps).Success? && NextIndex(catalogue, state.steps).value < |catalogue|
    ensures var count := if payload.numberOfOptions.Some? then payload.numberOfOptions.value else 3;
      var r := Start(catalogue, state, payload, draws);
      && (r.Failure? <==> count > |catalogue|)
      && (r.Success? ==>
            var step := r.value.step.value;
            && r.value.started
            && |step.options| == (if count <= 1 then 1 else count)
            && step.prompt.Some? && step.prompt.value in step.options
            && DistinctSymbols(step.options)
            && forall k | 0 <= k < |step.options| :: step.options[k] in catalogue)
  {
    var count := if payload.numberOfOptions.Some? then payload.numberOfOptions.value else 3;
    SequenceOptionsShape(catalogue, catalogue[NextIndex(catalogue, state.steps).value], count, draws);
  }

  /** A random start offers `numberOfOptions` (or, left out, all) distinct catalogue
      entries and prompts one of them; it throws only when asked for more entries than the
      catalogue has. */
  lemma StartRandomOptions(catalogue: seq<Letter>, state: GameState, payload: GameSettings, draws: Draws)
    requires DistinctSymbols(catalogue) && payload.gameMode == Random
    ensures var count := if payload.numberOfOptions.Some? then payload.numberOfOptions.value else |catalogue|;
      var r := Start(catalogue, state, payload, draws);
      && (r.Failure? <==> count > |catalogue|)
      && (r.Success? ==>
            var step := r.value.step.value;
            && r.value.started
            && |step.options| == (if count <= 0 then 0 else count)
            && DistinctSymbols(step.options)
            && (forall k | 0 <= k < |step.options| :: step.options[k] in catalogue)
            && (step.options != [] ==> step.prompt.Some? && step.prompt.value in step.options))
  {
    var count := if payload.numberOfOptions.Some? then payload.numberOfOptions.value else |catalogue|;
    var numbers := GenerateUniqueRandomNumbers(count, |catalogue|, draws.unique);
    if numbers.Success? {
      PickLettersDistinct(catalogue, numbers.value);
    }
  }

  /** The first sequence start over the consonant catalogue with the default option count
      prompts ก, the first consonant, among three distinct consonants. */
  lemma FirstSequenceStart(state: GameState, payload: GameSettings, draws: Draws)
    requires payload.gameMode == Sequence && payload.numberOfOptions.None?
    requires forall k | 0 <= k < |state.steps| :: !state.steps[k].correct
    ensures var r := GameReducer(state, StartAction(payload), draws);
      && r.Success? && r.value.started
      && r.value.step.value.prompt == Some(ThaiAlphabet.Catalogue[0])
      && ThaiAlphabet.Catalogue[0].symbol == "ก"
      && |r.value.step.value.options| == 3
      && DistinctSymbols(r.value.step.value.options)
  {
    ThaiAlphabet.SymbolsDistinct();
    ThaiAlphabet.OrdersAreSequential();
    StartSequenceFresh(ThaiAlphabet.Catalogue, state, payload, draws);
    StartSequenceOptions(ThaiAlphabet.Catalogue, state, payload, draws);
  }
}
