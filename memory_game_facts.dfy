/** What the game engine of src/app/features/MemoryGame/memoryGameStore.ts guarantees: the
    shape of the options it offers, how sequence and random games move from step to step,
    what an answer records, and when a sequence game ends. */
module MemoryGameFacts {
  import opened Wrappers
  import opened Letters
  import opened GameTypes
  import opened UniqueNumbers
  import opened RandomOrder
  import opened MemoryGame

  /** The points of a history add up over concatenation, so appending one record raises
      `getTotalStepPoints` by exactly that record's points. */
  lemma {:induction false} TotalStepPointsAppend(a: seq<StepRecord>, b: seq<StepRecord>)
    ensures TotalStepPoints(a + b) == TotalStepPoints(a) + TotalStepPoints(b)
    decreases |b|
  {
    if b != [] {
      var c := b[..|b| - 1];
      assert (a + b)[..|a + b| - 1] == a + c;
      TotalStepPointsAppend(a, c);
    } else {
      assert a + b == a;
    }
  }

  /** The right answers of two joined histories are those of the first, then those of the
      second, so appending one record raises their count by one exactly when it is right. */
  lemma {:induction false} CorrectStepsAppend(a: seq<StepRecord>, b: seq<StepRecord>)
    ensures CorrectSteps(a + b) == CorrectSteps(a) + CorrectSteps(b)
    decreases |a|
  {
    if a == [] {
      assert a + b == b;
    } else {
      assert (a + b)[0] == a[0] && (a + b)[1..] == a[1..] + b;
      CorrectStepsAppend(a[1..], b);
    }
  }

  /** Inserting an entry whose symbol a distinct-symbol list lacks keeps the symbols
      distinct. */
  lemma {:induction false} InsertKeepsDistinct(x: Letter, s: seq<Letter>)
    requires DistinctSymbols(s)
    requires forall y | y in s :: y.symbol != x.symbol
    ensures DistinctSymbols(InsertByOrder(x, s))
  {
    if s == [] {
    } else if x.order <= s[0].order {
      DistinctCons(x, s);
    } else {
      DistinctTail(s);
      InsertKeepsDistinct(x, s[1..]);
      var rest := InsertByOrder(x, s[1..]);
      forall y | y in rest ensures y.symbol != s[0].symbol {
        assert y in multiset(rest);
      }
      DistinctCons(s[0], rest);
    }
  }

  /** Sorting by order keeps the symbols distinct. */
  lemma {:induction false} SortKeepsDistinct(xs: seq<Letter>)
    requires DistinctSymbols(xs)
    ensures DistinctSymbols(SortByOrder(xs))
  {
    if xs != [] {
      DistinctTail(xs);
      SortKeepsDistinct(xs[1..]);
      var sorted := SortByOrder(xs[1..]);
      forall y | y in sorted ensures y.symbol != xs[0].symbol {
        assert y in multiset(sorted);
      }
      InsertKeepsDistinct(xs[0], sorted);
    }
  }

  /** A sequence game with nothing attempted starts at the entry with the smallest order. */
  lemma SequenceStartsAtSmallestOrder(alphabet: seq<Letter>)
    requires alphabet != []
    ensures NextInSequence(alphabet, None).Some?
    ensures NextInSequence(alphabet, None).value in alphabet
    ensures forall y | y in alphabet :: NextInSequence(alphabet, None).value.order <= y.order
  {
    var sorted := SortByOrder(alphabet);
    forall y | y in alphabet ensures sorted[0].order <= y.order {
      assert y in multiset(sorted);
      var k :| 0 <= k < |sorted| && sorted[k] == y;
    }
  }

  /** After the `i`-th entry in order comes the `(i+1)`-th, or nothing after the last. */
  lemma SequenceAdvances(alphabet: seq<Letter>, attempted: Letter, i: nat)
    requires DistinctSymbols(alphabet)
    requires i < |alphabet| && SortByOrder(alphabet)[i].symbol == attempted.symbol
    ensures NextInSequence(alphabet, Some(attempted)) ==
      if i + 1 < |alphabet| then Some(SortByOrder(alphabet)[i + 1]) else None
  {
    SortKeepsDistinct(alphabet);
    OwnIndexAfter(SortByOrder(alphabet), attempted.symbol, i);
  }

  /** In a distinct-symbol list, the entry after the one with `symbol` is found one place
      further on. */
  lemma OwnIndexAfter(sorted: seq<Letter>, symbol: string, i: nat)
    requires DistinctSymbols(sorted)
    requires i < |sorted| && sorted[i].symbol == symbol
    ensures IndexOfSymbol(sorted, symbol) + 1 == i + 1
  {
    FindOwnSymbol(sorted, i);
  }

  /** An attempt whose symbol is not in the alphabet restarts from the first entry. */
  lemma SequenceRestarts(alphabet: seq<Letter>, attempted: Letter)
    requires forall y | y in alphabet :: y.symbol != attempted.symbol
    ensures NextInSequence(alphabet, Some(attempted)) == NextInSequence(alphabet, None)
  {
    var sorted := SortByOrder(alphabet);
    forall k | 0 <= k < |sorted| ensures sorted[k].symbol != attempted.symbol {
      assert sorted[k] in multiset(alphabet);
    }
  }

  /** Distinct numbers into a distinct-symbol list pick distinct letters. */
  lemma PickDistinct(letters: seq<Letter>, numbers: seq<nat>)
    requires DistinctSymbols(letters)
    requires NoDuplicates(numbers) && AllBelow(numbers, |letters|)
    ensures DistinctOptions(Pick(letters, numbers))
  {
    var r := Pick(letters, numbers);
    forall i, j | 0 <= i < j < |r| ensures SymbolKey(r[i]) != SymbolKey(r[j]) {
      if numbers[i] > numbers[j] {
        assert letters[numbers[j]].symbol != letters[numbers[i]].symbol;
      }
    }
  }

  /** Appending a prompt whose symbol none of the options has keeps the options distinct. */
  lemma AppendPrompt(opts: seq<Option<Letter>>, prompt: Option<Letter>)
    requires DistinctOptions(opts)
    requires forall k | 0 <= k < |opts| ::
      opts[k].Some? && (prompt.Some? ==> opts[k].value.symbol != prompt.value.symbol)
    ensures DistinctOptions(opts + [prompt])
  {
    var r := opts + [prompt];
    forall i, j | 0 <= i < j < |r| ensures SymbolKey(r[i]) != SymbolKey(r[j]) {
      assert r[i] == opts[i];
    }
  }

  /** `makeRandomOptions` over a distinct-symbol alphabet offers no symbol twice. */
  lemma RandomOptionsDistinct(state: GameState, prompt: Option<Letter>, draws: Draws)
    requires DistinctSymbols(state.alphabet)
    ensures MakeRandomOptions(state, prompt, draws).Success? ==>
      DistinctOptions(MakeRandomOptions(state, prompt, draws).value)
  {
    var available := Available(state.alphabet, prompt);
    if prompt.Some? {
      WithoutSymbolDistinct(state.alphabet, prompt.value.symbol);
    }
    var numbers := GenerateUniqueRandomNumbers(OptionCount(state.settings) - 1, |available|, draws.unique);
    if numbers.Success? {
      var picked := Pick(available, numbers.value);
      PickDistinct(available, numbers.value);
      forall k | 0 <= k < |picked|
        ensures picked[k].Some? && (prompt.Some? ==> picked[k].value.symbol != prompt.value.symbol)
      {
        assert picked[k].value in available;
      }
      if prompt.None? {
        ReorderKeepsDistinct(picked, draws.order, SymbolKey);
        ReorderMembers(picked, draws.order);
        var shuffled := Reorder(picked, draws.order);
        forall k | 0 <= k < |shuffled| ensures shuffled[k].Some? {
          assert shuffled[k] in picked;
        }
        AppendPrompt(shuffled, prompt);
      } else {
        AppendPrompt(picked, prompt);
        ReorderKeepsDistinct(picked + [prompt], draws.order, SymbolKey);
      }
    }
  }

  /** A step whose options are distinct, all present and include the prompt is answered by
      the prompt itself, and exactly the attempts with the prompt's symbol are right. */
  lemma CorrectAnswerIsPrompt(step: Step, attempted: Letter)
    requires step.prompt.Some? && Some(step.prompt.value) in step.options
    requires DistinctOptions(step.options)
    requires forall k | 0 <= k < |step.options| :: step.options[k].Some?
    ensures GetCorrectAnswer(Some(step)) == Success(step.prompt)
    ensures CheckIsCorrectAttempt(Some(step), Some(attempted)) == Success(true) <==>
      attempted.symbol == GetCorrectAnswer(Some(step)).value.value.symbol
  {
    var r := GetCorrectAnswer(Some(step));
    var j :| 0 <= j < |step.options| && step.options[j] == step.prompt;
    assert r.value.Some?;
    var i :| 0 <= i < |step.options| && step.options[i] == Some(r.value.value);
    assert SymbolKey(step.options[i]) == SymbolKey(step.options[j]);
  }

  /** The first step of a sequence game over a distinct-symbol alphabet: the prompt is the
      entry with the smallest order, the options are that prompt once and
      `numberOfOptions - 1` other distinct entries, the step is worth one point per option,
      and its correct answer is its prompt. */
  lemma SequenceFirstStep(state: GameState, draws: Draws)
    requires state.settings.gameMode == Sequence && state.currentStep.None?
    requires DistinctSymbols(state.alphabet)
    requires 1 <= OptionCount(state.settings) <= |state.alphabet|
    ensures MakeNewStep(state, None, draws).Success?
    ensures var step := MakeNewStep(state, None, draws).value;
      && step.prompt.Some? && step.prompt.value in state.alphabet
      && (forall y | y in state.alphabet :: step.prompt.value.order <= y.order)
      && |step.options| == OptionCount(state.settings)
      && step.prompt in step.options
      && (forall k | 0 <= k < |step.options| :: step.options[k].Some? && step.options[k].value in state.alphabet)
      && DistinctOptions(step.options)
      && step.points == OptionCount(state.settings)
      && GetCorrectAnswer(Some(step)) == Success(step.prompt)
  {
    SequenceStartsAtSmallestOrder(state.alphabet);
    var p := NextInSequence(state.alphabet, None).value;
    var k :| 0 <= k < |state.alphabet| && state.alphabet[k] == p;
    WithoutSymbolLength(state.alphabet, p.symbol);
    var options := MakeRandomOptions(state, Some(p), draws);
    assert options.Success?;
    RandomOptionsDistinct(state, Some(p), draws);
    var step := MakeNewStep(state, None, draws).value;
    assert step.options == options.value;
    forall k | 0 <= k < |step.options| ensures step.options[k].Some? && step.options[k].value in state.alphabet {
      assert step.options[k] in options.value;
    }
    CorrectAnswerIsPrompt(step, p);
  }

  /** An attempt without a current step changes nothing. */
  lemma AttemptWithoutStep(state: GameState, attempted: Letter, draws: Draws)
    requires state.currentStep.None?
    ensures Attempt(state, attempted, draws) == Success(state)
  {
  }

  /** An attempt at a current step appends exactly one record: the step, the attempt,
      whether its symbol is the prompt's, and the step's points when it is and 0 when it is
      not; the total points rise by exactly that record's points. It throws only when the
      step has no prompt or the next step cannot be built. */
  lemma AttemptRecordsOnce(state: GameState, attempted: Letter, draws: Draws)
    requires state.currentStep.Some?
    ensures var c := state.currentStep.value;
      Attempt(state, attempted, draws).Failure? <==>
        c.prompt.None? || MakeNewStep(state, Some(attempted), draws).Failure?
    ensures var c := state.currentStep.value;
      var r := Attempt(state, attempted, draws);
      r.Success? ==>
        && |r.value.steps| == |state.steps| + 1
        && r.value.steps[..|state.steps|] == state.steps
        && var rec := r.value.steps[|state.steps|];
        && rec.prompt == c.prompt && rec.options == c.options && rec.attempt == attempted
        && (rec.correct <==> attempted.symbol == c.prompt.value.symbol)
        && rec.points == (if rec.correct then c.points else 0)
        && TotalStepPoints(r.value.steps) == TotalStepPoints(state.steps) + rec.points
        && CorrectSteps(r.value.steps) == CorrectSteps(state.steps) + (if rec.correct then [rec] else [])
  {
    var r := Attempt(state, attempted, draws);
    if r.Success? {
      assert r.value.steps[..|state.steps|] == state.steps;
      var rec := r.value.steps[|state.steps|];
      assert r.value.steps == state.steps + [rec];
      CorrectStepsAppend(state.steps, [rec]);
      assert CorrectSteps([rec]) == (if rec.correct then [rec] else []) by {
        assert [rec][1..] == [];
      }
    }
  }

  /** Sequence game, wrong attempt: the step is repeated with the same prompt and options for
      one point less (with no floor), and the game does not end. */
  lemma SequenceWrongAttempt(state: GameState, attempted: Letter, draws: Draws)
    requires state.settings.gameMode == Sequence
    requires state.currentStep.Some? && state.currentStep.value.prompt.Some?
    requires attempted.symbol != state.currentStep.value.prompt.value.symbol
    ensures Attempt(state, attempted, draws).Failure? <==>
      MakeRandomOptions(state, NextInSequence(state.alphabet, Some(attempted)), draws).Failure?
    ensures var c := state.currentStep.value;
      var r := Attempt(state, attempted, draws);
      r.Success? ==>
        && r.value.currentStep == Some(Step(c.prompt, c.options, c.points - 1, state.settings.inputMode))
        && r.value.started == state.started && r.value.finished == state.finished
  {
    var c := state.currentStep.value;
    assert CheckIsCorrectAttempt(state.currentStep, Some(attempted)) == Success(false);
    var step := MakeSequenceStep(state, Some(attempted), draws);
    assert MakeNewStep(state, Some(attempted), draws) == step;
    if step.Success? {
      assert step.value == Step(c.prompt, c.options, c.points - 1, state.settings.inputMode);
    }
  }

  /** Sequence game, right attempt: the game ends exactly when the history was not empty and
      the right answers, this one included, reach the alphabet's size; ending stops the game,
      marks it finished, keeps the history and leaves the current step as it was. Otherwise
      the next prompt is the entry after the attempted one, at the same points. */
  lemma SequenceRightAttempt(state: GameState, attempted: Letter, draws: Draws)
    requires state.settings.gameMode == Sequence
    requires state.currentStep.Some? && state.currentStep.value.prompt.Some?
    requires attempted.symbol == state.currentStep.value.prompt.value.symbol
    ensures Attempt(state, attempted, draws).Failure? <==>
      MakeRandomOptions(state, NextInSequence(state.alphabet, Some(attempted)), draws).Failure?
    ensures var c := state.currentStep.value;
      var r := Attempt(state, attempted, draws);
      var history := state.steps + [Record(c, attempted, true)];
      r.Success? ==>
        if |state.steps| > 0 && |CorrectSteps(history)| >= |state.alphabet| then
          r.value == state.(started := false, finished := true, steps := history)
        else
          && r.value.currentStep.Some?
          && r.value.currentStep.value.prompt == NextInSequence(state.alphabet, Some(attempted))
          && r.value.currentStep.value.points == c.points
          && r.value.started == state.started && r.value.finished == state.finished
  {
  }

  /** A right answer adds exactly one record to the right answers that end a sequence
      game, so the game ends once the history holds as many right answers as letters. */
  lemma RightAnswerCounted(steps: seq<StepRecord>, current: Step, attempted: Letter)
    ensures CorrectSteps(steps + [Record(current, attempted, true)]) ==
      CorrectSteps(steps) + [Record(current, attempted, true)]
    ensures |CorrectSteps(steps + [Record(current, attempted, true)])| == |CorrectSteps(steps)| + 1
  {
    var rec := Record(current, attempted, true);
    CorrectStepsAppend(steps, [rec]);
    assert CorrectSteps([rec]) == [rec] by {
      assert [rec][1..] == [];
    }
  }

  /** In a sequence game the points of the current step never go up. */
  lemma SequencePointsNeverRise(state: GameState, attempted: Letter, draws: Draws)
    requires state.settings.gameMode == Sequence && state.currentStep.Some?
    ensures var r := Attempt(state, attempted, draws);
      r.Success? && r.value.currentStep.Some? ==>
        r.value.currentStep.value.points <= state.currentStep.value.points
  {
    if state.currentStep.value.prompt.Some? {
      if attempted.symbol == state.currentStep.value.prompt.value.symbol {
        SequenceRightAttempt(state, attempted, draws);
      } else {
        SequenceWrongAttempt(state, attempted, draws);
      }
    }
  }

  /** The fresh step of a random game (first step, or after an attempt with a symbol):
      `numberOfOptions` distinct catalogue entries, the prompt one of them, and the points
      of the current step, or one per option when those are 0 or there is no step. */
  lemma RandomFreshStep(state: GameState, attempted: Option<Letter>, draws: Draws)
    requires state.settings.gameMode == Random
    requires state.currentStep.None? || (attempted.Some? && attempted.value.symbol != "")
    requires DistinctSymbols(state.alphabet)
    ensures MakeNewStep(state, attempted, draws).Failure? <==> RandomCount(state) > |state.alphabet|
    ensures var r := MakeNewStep(state, attempted, draws);
      r.Success? ==>
        && |r.value.options| == (if RandomCount(state) <= 0 then 0 else RandomCount(state))
        && (forall k | 0 <= k < |r.value.options| ::
              r.value.options[k].Some? && r.value.options[k].value in state.alphabet)
        && DistinctOptions(r.value.options)
        && (r.value.options != [] ==> r.value.prompt in r.value.options)
        && r.value.points ==
             if state.currentStep.Some? && state.currentStep.value.points != 0 then state.currentStep.value.points
             else |r.value.options|
  {
    var numbers := GenerateUniqueRandomNumbers(RandomCount(state), |state.alphabet|, draws.unique);
    if numbers.Success? {
      PickDistinct(state.alphabet, numbers.value);
    }
  }

  /** Random game: an attempt carrying a symbol always draws a fresh step, right or wrong,
      and a random game never ends. */
  lemma RandomAttemptRerolls(state: GameState, attempted: Letter, draws: Draws)
    requires state.settings.gameMode == Random
    requires state.currentStep.Some? && state.currentStep.value.prompt.Some?
    requires attempted.symbol != ""
    ensures Attempt(state, attempted, draws).Failure? <==> RandomCount(state) > |state.alphabet|
    ensures var r := Attempt(state, attempted, draws);
      r.Success? ==>
        && r.value.currentStep == Some(MakeNewStep(state, Some(attempted), draws).value)
        && r.value.started == state.started && r.value.finished == state.finished
  {
  }
}
