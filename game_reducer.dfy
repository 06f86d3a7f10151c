/** `gameReducer` of src/app/features/MemoryGame/gameReducer.ts, the older pure reducer of
    the memory game, over its own state shape: one current `step`, the answered `steps`,
    and `rewards` carried by the steps. It draws letters from the 41-consonant catalogue of
    src/app/utils/thaiAlphabet.ts; the functions below take that catalogue as a parameter
    and `GameReducer` supplies it.

    A case that throws (reading a missing prompt, or too few letters to draw from) gives a
    `Failure`. */
module MemoryGameReducer {
  import opened Wrappers
  import opened Letters
  import opened GameTypes
  import opened UniqueNumbers
  import opened RandomOrder
  import ThaiAlphabet

  /** A point won for a right answer, with the step it was won on. */
  datatype Reward = Reward(step: Step, attempt: Letter, correct: bool, points: int)

  /** A step of this reducer; an absent `rewards` list reads as the empty one. */
  datatype Step = Step(
    prompt: Option<Letter>,
    correct: bool,
    attempt: Option<Letter>,
    options: seq<Letter>,
    rewards: seq<Reward>)

  datatype GameState = GameState(
    started: bool,
    steps: seq<Step>,
    step: Option<Step>,
    settings: GameSettings)

  /** The actions; any other `type` is `OtherAction`. */
  datatype GameAction =
    | StartAction(payload: GameSettings)
    | EndAction
    | AttemptAction(attempt: Letter)
    | OtherAction(kind: string)

  const UndefinedLetterError := "Cannot read properties of undefined (reading 'alphabet')"

  /** `{ ...current, ...payload }`: the payload's fields win, except the optional ones it leaves
      out. An optional field is `None` when the payload omits the key. A key present with the
      value `undefined`, which the spread would copy, is not represented. */
  function MergeSettings(current: GameSettings, payload: GameSettings): (r: GameSettings)
    ensures r.(numberOfOptions := payload.numberOfOptions, thaiAlphabetTypes := payload.thaiAlphabetTypes) == payload
    ensures r.numberOfOptions == if payload.numberOfOptions.Some? then payload.numberOfOptions else current.numberOfOptions
    ensures r.thaiAlphabetTypes == if payload.thaiAlphabetTypes.Some? then payload.thaiAlphabetTypes else current.thaiAlphabetTypes
  {
    payload.(
      numberOfOptions := if payload.numberOfOptions.Some? then payload.numberOfOptions else current.numberOfOptions,
      thaiAlphabetTypes := if payload.thaiAlphabetTypes.Some? then payload.thaiAlphabetTypes else current.thaiAlphabetTypes)
  }

  /** `[...steps].reverse().find(step => step.correct)`, as the index of the last right step,
      -1 when there is none. */
  function LastCorrectIndex(steps: seq<Step>): (i: int)
    ensures -1 <= i < |steps|
    ensures 0 <= i ==> steps[i].correct && forall k | i < k < |steps| :: !steps[k].correct
    ensures i == -1 <==> forall k | 0 <= k < |steps| :: !steps[k].correct
  {
    if steps == [] then -1
    else if steps[|steps| - 1].correct then |steps| - 1
    else LastCorrectIndex(steps[..|steps| - 1])
  }

  /** The catalogue index a sequence game goes on from: after the prompt of the last right
      step, or 0 without one. Reading the prompt of a step that has none throws. */
  function NextIndex(catalogue: seq<Letter>, steps: seq<Step>): (r: Result<int>)
    ensures r.Failure? <==> LastCorrectIndex(steps) >= 0 && steps[LastCorrectIndex(steps)].prompt.None?
    ensures r.Success? ==> 0 <= r.value <= |catalogue|
  {
    var last := LastCorrectIndex(steps);
    if last < 0 then Success(0)
    else if steps[last].prompt.None? then Failure(UndefinedLetterError)
    else Success(IndexOfSymbol(catalogue, steps[last].prompt.value.symbol) + 1)
  }

  /** `numbers.map(n => letters[n])`. */
  function PickLetters(letters: seq<Letter>, numbers: seq<nat>): (r: seq<Letter>)
    requires AllBelow(numbers, |letters|)
    ensures |r| == |numbers| && forall k | 0 <= k < |r| :: r[k] in letters
  {
    seq(|numbers|, k requires 0 <= k < |numbers| => letters[numbers[k]])
  }

  /** The options of a sequence start: `count - 1` other letters drawn from the catalogue
      without the prompt, then the prompt, shuffled. */
  function SequenceOptions(catalogue: seq<Letter>, prompt: Letter, count: int, draws: Draws): (r: Result<seq<Letter>>)
    ensures r.Failure? <==> count - 1 > |WithoutSymbol(catalogue, prompt.symbol)|
  {
    var available := WithoutSymbol(catalogue, prompt.symbol);
    var numbers :- GenerateUniqueRandomNumbers(count - 1, |available|, draws.unique);
    Success(Reorder(PickLetters(available, numbers) + [prompt], draws.order))
  }

  /** The options of a random start: `count` letters drawn from the catalogue. */
  function RandomOptions(catalogue: seq<Letter>, count: int, draws: Draws): (r: Result<seq<Letter>>)
    ensures r.Failure? <==> count > |catalogue|
    ensures r.Success? ==> forall k | 0 <= k < |r.value| :: r.value[k] in catalogue
  {
    var numbers :- GenerateUniqueRandomNumbers(count, |catalogue|, draws.unique);
    Success(PickLetters(catalogue, numbers))
  }

  /** The `start` case. A sequence game goes on from the last right step; past the end of
      the catalogue it stops and clears the steps, keeping the settings. It offers the
      prompt and `numberOfOptions - 1` (default 3) other letters, shuffled. A random game
      offers `numberOfOptions` letters and prompts one of them. Either way the game is
      started with the payload merged into the settings. */
  function Start(catalogue: seq<Letter>, state: GameState, payload: GameSettings, draws: Draws): (r: Result<GameState>)
    ensures r.Success? && r.value.started ==>
      r.value.settings == MergeSettings(state.settings, payload) && r.value.steps == state.steps &&
      r.value.step.Some? && !r.value.step.value.correct && r.value.step.value.attempt.None? &&
      r.value.step.value.rewards == []
    ensures r.Success? && !r.value.started ==>
      payload.gameMode == Sequence && r.value == state.(step := None, steps := [], started := false)
  {
    var settings := MergeSettings(state.settings, payload);
    if payload.gameMode == Sequence then
      var next :- NextIndex(catalogue, state.steps);
      if next >= |catalogue| then Success(state.(step := None, steps := [], started := false))
      else
        var prompt := catalogue[next];
        var count := if payload.numberOfOptions.Some? then payload.numberOfOptions.value else 3;
        var options :- SequenceOptions(catalogue, prompt, count, draws);
        Success(state.(started := true, step := Some(Step(Some(prompt), false, None, options, [])), settings := settings))
    else
      var count := if payload.numberOfOptions.Some? then payload.numberOfOptions.value else |catalogue|;
      var options :- RandomOptions(catalogue, count, draws);
      var prompt := if options == [] then None else Some(options[draws.prompt % |options|]);
      Success(state.(started := true, step := Some(Step(prompt, false, None, options, [])), settings := settings))
  }

  /** The `end` case: stopped, no step, no history, settings kept. */
  function End(state: GameState): (r: GameState)
    ensures !r.started && r.step.None? && r.steps == [] && r.settings == state.settings
  {
    state.(started := false, step := None, steps := [])
  }

  /** The `attempt` case: judge the attempt against the current step's prompt, add a reward
      worth 1 only for a right attempt, mark the step, and append it to the history with the
      attempt. Without a step or a prompt the comparison throws. */
  function AttemptAnswer(state: GameState, attempt: Letter): (r: Result<GameState>)
    ensures r.Failure? <==> state.step.None? || state.step.value.prompt.None?
    ensures r.Success? ==>
      var before := state.step.value;
      var correct := before.prompt.value.symbol == attempt.symbol;
      && r.value.settings == state.settings && r.value.started == state.started
      && r.value.step.Some? && r.value.step.value.correct == correct
      && |r.value.steps| == |state.steps| + 1 && r.value.steps[..|state.steps|] == state.steps
      && r.value.steps[|state.steps|].attempt == Some(attempt)
      && r.value.steps[|state.steps|].correct == correct
      && r.value.steps[|state.steps|].prompt == before.prompt
      && r.value.steps[|state.steps|].rewards == r.value.step.value.rewards
      && (correct ==>
            r.value.step.value.rewards == before.rewards + [Reward(before, attempt, true, 1)])
      && (!correct ==> r.value.step.value.rewards == before.rewards)
  {
    if state.step.None? || state.step.value.prompt.None? then Failure(UndefinedLetterError)
    else
      var current := state.step.value;
      var correct := current.prompt.value.symbol == attempt.symbol;
      var reward := Reward(current, attempt, correct, if correct then 1 else 0);
      var rewards := if correct then current.rewards + [reward] else current.rewards;
      var history := current.(rewards := rewards, attempt := Some(attempt), correct := correct);
      assert (state.steps + [history])[..|state.steps|] == state.steps;
      Success(state.(step := Some(current.(rewards := rewards, correct := correct)), steps := state.steps + [history]))
  }

  /** The reducer over a given catalogue. */
  function Reduce(catalogue: seq<Letter>, state: GameState, action: GameAction, draws: Draws): (r: Result<GameState>)
    ensures action.EndAction? ==> r == Success(End(state))
    ensures action.OtherAction? ==> r == Success(state)
  {
    match action
    case StartAction(payload) => Start(catalogue, state, payload, draws)
    case EndAction => Success(End(state))
    case AttemptAction(attempt) => AttemptAnswer(state, attempt)
    case OtherAction(_) => Success(state)
  }

  /** `gameReducer(state, action)` over the catalogue of src/app/utils/thaiAlphabet.ts. */
  function GameReducer(state: GameState, action: GameAction, draws: Draws): (r: Result<GameState>)
    ensures action.OtherAction? ==> r == Success(state)
  {
    Reduce(ThaiAlphabet.Catalogue, state, action, draws)
  }
}
