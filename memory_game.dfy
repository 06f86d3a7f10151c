/** The flashcard game engine of src/app/features/MemoryGame/memoryGameStore.ts: the game
    state, the step builders for sequence and random games, and the three store actions as
    functions from the old state to the new one (the store class itself is in
    memory_game_store.dfy).

    An action that throws leaves the store as it was: zustand's `set(fn)` only merges what
    `fn` returns, so a throw inside `fn` reaches the caller before anything changes. Every
    builder that can throw therefore returns a `Result`.

    `Math.random()` is replaced by `Draws`: the draws the uniqueness helper consumes, the
    draws that order the options, and the draw that picks a random prompt. Giving each use
    its own stream allows the same outcomes as one shared stream. */
module MemoryGame {
  import opened Wrappers
  import opened Letters
  import opened GameTypes
  import opened UniqueNumbers
  import opened RandomOrder
  import ThaiAlphabet

  /** A question: the letter to find, the letters offered, and what a right answer is worth.
      The prompt is absent when a sequence runs past its last letter or a random game draws
      no options; the options may then hold that absent prompt. */
  datatype Step = Step(
    prompt: Option<Letter>,
    options: seq<Option<Letter>>,
    points: int,
    inputMode: InputMode)

  /** `StepHistory`: an answered step with the attempt, whether it was right, and the
      points it earned. */
  datatype StepRecord = StepRecord(
    prompt: Option<Letter>,
    options: seq<Option<Letter>>,
    points: int,
    inputMode: InputMode,
    attempt: Letter,
    correct: bool)

  /** `GameState`, with `steps` always present. `attemptAnswer` reads a missing list as the
      empty one (`steps ? [...steps, s] : [s]` and `!!steps?.length`). `startGame`'s spread
      `{...initState, ...gameState}` does not: there a state without `steps` takes the initial
      state's list. The model only covers states that carry the key. */
  datatype GameState = GameState(
    alphabet: seq<Letter>,
    started: bool,
    finished: bool,
    steps: seq<StepRecord>,
    currentStep: Option<Step>,
    settings: GameSettings)

  const DefaultSettings: GameSettings :=
    GameSettings(Alphabet, Sequence, Easy, Thai, Some(3), Options, None)

  /** `defaultInitState`: not started, no history, the 41-consonant catalogue. */
  const DefaultInitState: GameState :=
    GameState(ThaiAlphabet.Catalogue, false, false, [], None, DefaultSettings)

  const MissingPromptError := "Prompt or currentStep is not defined"

  /** What reading `.alphabet` of `undefined` throws. */
  const UndefinedLetterError := "Cannot read properties of undefined (reading 'alphabet')"

  /** The symbol of an option, absent for an absent option; options are told apart by it. */
  function SymbolKey(o: Option<Letter>): Option<string> {
    if o.Some? then Some(o.value.symbol) else None
  }

  /** No two options share a symbol, and at most one is absent. */
  predicate DistinctOptions(opts: seq<Option<Letter>>) {
    forall i, j | 0 <= i < j < |opts| :: SymbolKey(opts[i]) != SymbolKey(opts[j])
  }

  /** The search of `getCorrectAnswer`: the first option with the prompt's symbol. Testing
      an option throws when the prompt is absent, or when the option itself is. */
  function FindAnswer(prompt: Option<Letter>, options: seq<Option<Letter>>): (r: Result<Option<Letter>>)
    ensures r.Failure? ==> options != []
    ensures prompt.None? && options != [] ==> r == Failure(MissingPromptError)
    ensures r.Success? && r.value.Some? ==>
      prompt.Some? && Some(r.value.value) in options && r.value.value.symbol == prompt.value.symbol
    ensures prompt.Some? && (forall k | 0 <= k < |options| :: options[k].Some?) ==>
      r.Success? &&
      (r.value.None? <==> forall k | 0 <= k < |options| :: options[k].value.symbol != prompt.value.symbol)
  {
    if options == [] then Success(None)
    else if prompt.None? then Failure(MissingPromptError)
    else if options[0].None? then Failure(UndefinedLetterError)
    else if options[0].value.symbol == prompt.value.symbol then Success(options[0])
    else FindAnswer(prompt, options[1..])
  }

  /** `getCorrectAnswer(currentStep)`: the option that answers the step, nothing without a
      step, and a throw when there are options but no prompt. */
  function GetCorrectAnswer(currentStep: Option<Step>): (r: Result<Option<Letter>>)
    ensures currentStep.None? ==> r == Success(None)
    ensures currentStep.Some? && currentStep.value.prompt.None? && currentStep.value.options != [] ==>
      r == Failure(MissingPromptError)
    ensures r.Success? && r.value.Some? ==>
      currentStep.Some? && currentStep.value.prompt.Some? &&
      Some(r.value.value) in currentStep.value.options &&
      r.value.value.symbol == currentStep.value.prompt.value.symbol
  {
    if currentStep.None? then Success(None) else FindAnswer(currentStep.value.prompt, currentStep.value.options)
  }

  /** `checkIsCorrectAttempt`: the attempt is right when it has the prompt's symbol. Without
      a step it is right only when there is no attempt either; a step without a prompt
      throws. */
  function CheckIsCorrectAttempt(currentStep: Option<Step>, attempted: Option<Letter>): (r: Result<bool>)
    ensures r.Failure? <==> currentStep.Some? && currentStep.value.prompt.None?
    ensures currentStep.None? ==> (r == Success(true) <==> attempted.None?)
    ensures currentStep.Some? ==> (r == Success(true) <==>
      currentStep.value.prompt.Some? && attempted.Some? &&
      attempted.value.symbol == currentStep.value.prompt.value.symbol)
  {
    if currentStep.None? then Success(attempted.None?)
    else if currentStep.value.prompt.None? then Failure(UndefinedLetterError)
    else Success(attempted.Some? && attempted.value.symbol == currentStep.value.prompt.value.symbol)
  }

  /** `getTotalStepPoints`: the points of the history, summed from the left. */
  function TotalStepPoints(steps: seq<StepRecord>): (total: int)
    ensures (forall k | 0 <= k < |steps| :: steps[k].points >= 0) ==> total >= 0
  {
    if steps == [] then 0 else TotalStepPoints(steps[..|steps| - 1]) + steps[|steps| - 1].points
  }

  /** The history entries answered correctly, in order. */
  function CorrectSteps(steps: seq<StepRecord>): (r: seq<StepRecord>)
    ensures |r| <= |steps|
    ensures forall s :: s in r <==> s in steps && s.correct
  {
    if steps == [] then []
    else if steps[0].correct then [steps[0]] + CorrectSteps(steps[1..])
    else CorrectSteps(steps[1..])
  }

  /** Ordered by `order`, ties in either order. */
  predicate SortedByOrder(s: seq<Letter>) {
    forall i, j | 0 <= i < j < |s| :: s[i].order <= s[j].order
  }

  /** Insert `x` before the first entry of `s` whose order is not below its own. */
  function InsertByOrder(x: Letter, s: seq<Letter>): (r: seq<Letter>)
    ensures multiset(r) == multiset(s) + multiset{x}
  {
    if s == [] then [x]
    else if x.order <= s[0].order then [x] + s
    else
      assert s == [s[0]] + s[1..];
      [s[0]] + InsertByOrder(x, s[1..])
  }

  /** Inserting into a sorted list keeps it sorted. */
  lemma {:induction false} InsertKeepsSorted(x: Letter, s: seq<Letter>)
    requires SortedByOrder(s)
    ensures SortedByOrder(InsertByOrder(x, s))
  {
    if s == [] {
    } else if x.order <= s[0].order {
      forall y | y in s ensures x.order <= y.order {
        var k :| 0 <= k < |s| && s[k] == y;
      }
      ConsSorted(x, s);
    } else {
      var rest := InsertByOrder(x, s[1..]);
      InsertKeepsSorted(x, s[1..]);
      forall y | y in rest ensures s[0].order <= y.order {
        assert y in multiset(rest);
        if y != x {
          assert y in multiset(s[1..]);
          var k :| 0 <= k < |s[1..]| && s[1..][k] == y;
          assert s[k + 1] == y;
        }
      }
      ConsSorted(s[0], rest);
    }
  }

  /** An entry ordered no later than every entry of a sorted list may go in front of it. */
  lemma ConsSorted(y: Letter, t: seq<Letter>)
    requires SortedByOrder(t)
    requires forall z | z in t :: y.order <= z.order
    ensures SortedByOrder([y] + t)
  {
    var r := [y] + t;
    forall i, j | 0 <= i < j < |r| ensures r[i].order <= r[j].order {
      assert r[j] == t[j - 1];
      if i > 0 {
        assert r[i] == t[i - 1];
      }
    }
  }

  /** `[...alphabet].sort((a, b) => a.order - b.order)`: a stable sort by order. */
  function SortByOrder(xs: seq<Letter>): (r: seq<Letter>)
    ensures multiset(r) == multiset(xs) && |r| == |xs|
    ensures SortedByOrder(r)
  {
    if xs == [] then []
    else
      assert xs == [xs[0]] + xs[1..];
      InsertKeepsSorted(xs[0], SortByOrder(xs[1..]));
      InsertByOrder(xs[0], SortByOrder(xs[1..]))
  }

  /** `numberOfOptions` with the default 3 of `makeRandomOptions`. */
  function OptionCount(settings: GameSettings): int {
    if settings.numberOfOptions.Some? then settings.numberOfOptions.value else 3
  }

  /** The letters options may be drawn from: all of them but the prompt. */
  function Available(alphabet: seq<Letter>, prompt: Option<Letter>): (r: seq<Letter>)
    ensures forall x :: x in r <==> x in alphabet && (prompt.Some? ==> x.symbol != prompt.value.symbol)
  {
    if prompt.Some? then WithoutSymbol(alphabet, prompt.value.symbol) else alphabet
  }

  /** `numbers.map(n => letters[n])`. */
  function Pick(letters: seq<Letter>, numbers: seq<nat>): (r: seq<Option<Letter>>)
    requires AllBelow(numbers, |letters|)
    ensures |r| == |numbers|
    ensures forall k | 0 <= k < |r| :: r[k].Some? && r[k].value in letters
  {
    seq(|numbers|, k requires 0 <= k < |numbers| => Some(letters[numbers[k]]))
  }

  /** `makeRandomOptions(state, prompt)`: `numberOfOptions - 1` distinct letters other than
      the prompt, and the prompt, in an order picked by the draws. Throws when there are too
      few letters to draw from. An absent prompt is `undefined`, which `Array.prototype.sort`
      places after every other element without consulting the comparator. */
  function MakeRandomOptions(state: GameState, prompt: Option<Letter>, draws: Draws): (r: Result<seq<Option<Letter>>>)
    ensures r.Failure? <==> OptionCount(state.settings) - 1 > |Available(state.alphabet, prompt)|
    ensures r.Success? ==> |r.value| == if OptionCount(state.settings) <= 1 then 1 else OptionCount(state.settings)
    ensures r.Success? ==> prompt in r.value
    ensures r.Success? ==> forall o | o in r.value ::
      o == prompt || (o.Some? && o.value in Available(state.alphabet, prompt))
    ensures r.Success? && prompt.None? ==> r.value[|r.value| - 1] == None
  {
    var available := Available(state.alphabet, prompt);
    var numbers :- GenerateUniqueRandomNumbers(OptionCount(state.settings) - 1, |available|, draws.unique);
    var picked := Pick(available, numbers);
    if prompt.None? then
      ReorderMembers(picked, draws.order);
      Success(Reorder(picked, draws.order) + [None])
    else
      var unordered := picked + [prompt];
      ReorderMembers(unordered, draws.order);
      Success(Reorder(unordered, draws.order))
  }

  /** The prompt after `attempted` in a sequence game: the entry after the attempted one in
      order, or the first entry when nothing was attempted or the attempt is not in the
      alphabet; nothing past the last entry. */
  function NextInSequence(alphabet: seq<Letter>, attempted: Option<Letter>): (r: Option<Letter>)
    ensures r.Some? ==> r.value in alphabet
  {
    var sorted := SortByOrder(alphabet);
    var next := if attempted.Some? then IndexOfSymbol(sorted, attempted.value.symbol) + 1 else 0;
    if next < |sorted| then
      assert sorted[next] in multiset(alphabet);
      Some(sorted[next])
    else None
  }

  /** `makeSequenceStep(state, attempted)`. The options for the next prompt are drawn first
      (and may throw) whether or not they are used. Without a current step they make the
      first step, worth one point per option; otherwise a right attempt moves to the next
      prompt at the same points and a wrong one repeats the step for one point less. */
  function MakeSequenceStep(state: GameState, attempted: Option<Letter>, draws: Draws): (r: Result<Step>)
    ensures r.Failure? <==>
      MakeRandomOptions(state, NextInSequence(state.alphabet, attempted), draws).Failure? ||
      (state.currentStep.Some? && state.currentStep.value.prompt.None?)
    ensures r.Success? ==> r.value.inputMode == state.settings.inputMode
  {
    var next := NextInSequence(state.alphabet, attempted);
    var options :- MakeRandomOptions(state, next, draws);
    if state.currentStep.None? then
      Success(Step(next, options, |options|, state.settings.inputMode))
    else
      var current := state.currentStep.value;
      var isCorrect :- CheckIsCorrectAttempt(state.currentStep, attempted);
      Success(Step(
        if isCorrect then next else current.prompt,
        if isCorrect then options else current.options,
        current.points + (if isCorrect then 0 else -1),
        state.settings.inputMode))
  }

  /** How many letters a random step offers: `numberOfOptions`; left out, the uniqueness
      helper compares and slices with `undefined` and returns a shuffle of the whole
      alphabet, as for the alphabet's length. */
  function RandomCount(state: GameState): int {
    if state.settings.numberOfOptions.Some? then state.settings.numberOfOptions.value else |state.alphabet|
  }

  /** `makeRandomStep(state, attempted)`. Fresh options and a prompt among them are drawn
      first (and may throw). They make the step when there is no current step or the
      attempt carries a non-empty symbol, keeping the current points unless those are 0 or
      absent. Otherwise the step is judged as in a sequence game. */
  function MakeRandomStep(state: GameState, attempted: Option<Letter>, draws: Draws): (r: Result<Step>)
    ensures r.Failure? <==>
      RandomCount(state) > |state.alphabet| ||
      (state.currentStep.Some? && (attempted.None? || attempted.value.symbol == "") &&
       state.currentStep.value.prompt.None?)
    ensures r.Success? ==> r.value.inputMode == state.settings.inputMode
  {
    var numbers :- GenerateUniqueRandomNumbers(RandomCount(state), |state.alphabet|, draws.unique);
    var options := Pick(state.alphabet, numbers);
    var prompt := if options == [] then None else options[draws.prompt % |options|];
    if state.currentStep.None? || (attempted.Some? && attempted.value.symbol != "") then
      var points :=
        if state.currentStep.Some? && state.currentStep.value.points != 0 then state.currentStep.value.points
        else |options|;
      Success(Step(prompt, options, points, state.settings.inputMode))
    else
      var current := state.currentStep.value;
      var isCorrect :- CheckIsCorrectAttempt(state.currentStep, attempted);
      Success(Step(
        if isCorrect then prompt else current.prompt,
        if isCorrect then options else current.options,
        current.points - (if isCorrect then 0 else 1),
        state.settings.inputMode))
  }

  /** `makeNewStep`: the builder of the game's mode. */
  function MakeNewStep(state: GameState, attempted: Option<Letter>, draws: Draws): (r: Result<Step>)
    ensures state.settings.gameMode == Sequence ==> r == MakeSequenceStep(state, attempted, draws)
    ensures state.settings.gameMode == Random ==> r == MakeRandomStep(state, attempted, draws)
  {
    match state.settings.gameMode
    case Sequence => MakeSequenceStep(state, attempted, draws)
    case Random => MakeRandomStep(state, attempted, draws)
  }

  /** The record `attemptAnswer` appends for an attempt at `current`: the step, the
      attempt, whether it was right, and the step's points if it was, else 0. */
  function Record(current: Step, attempted: Letter, correct: bool): (r: StepRecord)
    ensures r.points == if correct then current.points else 0
  {
    StepRecord(current.prompt, current.options, if correct then current.points else 0,
               current.inputMode, attempted, correct)
  }

  /** A sequence game is over after a right attempt that was not the first answer, once the
      right answers are at least as many as the letters. */
  predicate GameIsOver(steps: seq<StepRecord>, history: seq<StepRecord>, alphabet: seq<Letter>) {
    |steps| > 0 && |CorrectSteps(history)| >= |alphabet|
  }

  /** `startGame(gameState)`: the given state, started, with a first step built for it. */
  function Start(gameState: GameState, draws: Draws): (r: Result<GameState>)
    ensures r.Success? ==> r.value.started && r.value.currentStep.Some?
    ensures r.Success? ==> r.value.(started := gameState.started, currentStep := gameState.currentStep) == gameState
    ensures r.Failure? <==> MakeNewStep(gameState, None, draws).Failure?
  {
    var newStep :- MakeNewStep(gameState, None, draws);
    Success(gameState.(started := true, currentStep := Some(newStep)))
  }

  /** `endGame()`: the store's initial state, not started. */
  function End(initState: GameState): (r: GameState)
    ensures !r.started && r.(started := initState.started) == initState
  {
    initState.(started := false)
  }

  /** `attemptAnswer(attempted)`: record the attempt and move on, or end a sequence game. */
  function Attempt(state: GameState, attempted: Letter, draws: Draws): (r: Result<GameState>)
    ensures r.Success? ==> r.value.alphabet == state.alphabet && r.value.settings == state.settings
  {
    if state.currentStep.None? then Success(state)
    else
      var current := state.currentStep.value;
      var isCorrect :- CheckIsCorrectAttempt(state.currentStep, Some(attempted));
      var history := state.steps + [Record(current, attempted, isCorrect)];
      var newStep :- MakeNewStep(state, Some(attempted), draws);
      if !isCorrect then
        Success(state.(currentStep := Some(newStep), steps := history))
      else if state.settings.gameMode == Sequence && GameIsOver(state.steps, history, state.alphabet) then
        Success(state.(started := false, finished := true, steps := history))
      else
        Success(state.(currentStep := Some(newStep), steps := history))
  }
}
