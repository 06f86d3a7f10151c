/** The store `createMemoryGameStore(initState)` of
    src/app/features/MemoryGame/memoryGameStore.ts: the game state held in fields that the
    three actions replace. An action that throws returns the error and changes nothing. */
module MemoryGameStores {
  import opened Wrappers
  import opened Letters
  import opened GameTypes
  import opened RandomOrder
  import opened MemoryGame

  class MemoryGameStore {
    /** The state the store was created with, which `startGame()` and `endGame()` reuse. */
    const initState: GameState

    var alphabet: seq<Letter>
    var started: bool
    var finished: bool
    var steps: seq<StepRecord>
    var currentStep: Option<Step>
    var settings: GameSettings

    /** The store's current game state. */
    function State(): GameState
      reads this
    {
      GameState(alphabet, started, finished, steps, currentStep, settings)
    }

    /** The store starts out as `initState`. */
    constructor (initState: GameState)
      ensures this.initState == initState && State() == initState
    {
      this.initState := initState;
      alphabet := initState.alphabet;
      started := initState.started;
      finished := initState.finished;
      steps := initState.steps;
      currentStep := initState.currentStep;
      settings := initState.settings;
    }

    /** `startGame(gameState = initState)`: take over the given state, started, with a first
        step built for it. */
    method StartGame(gameState: Option<GameState>, draws: Draws) returns (error: Option<string>)
      modifies this
      ensures var given := if gameState.Some? then gameState.value else initState;
        var r := Start(given, draws);
        && (r.Success? ==> error.None? && State() == r.value)
        && (r.Failure? ==> error == Some(r.error) && State() == old(State()))
    {
      var given := if gameState.Some? then gameState.value else initState;
      var newStep := MakeNewStep(given, None, draws);
      if newStep.Failure? {
        return Some(newStep.error);
      }
      alphabet := given.alphabet;
      finished := given.finished;
      steps := given.steps;
      settings := given.settings;
      started := true;
      currentStep := Some(newStep.value);
      return None;
    }

    /** `endGame()`: back to the initial state, not started. */
    method EndGame()
      modifies this
      ensures State() == End(initState)
    {
      alphabet := initState.alphabet;
      started := false;
      finished := initState.finished;
      steps := initState.steps;
      currentStep := initState.currentStep;
      settings := initState.settings;
    }

    /** `attemptAnswer(attempted)`: nothing without a current step; otherwise append the
        record of the attempt, then either end a sequence game that is over or move to the
        next step. */
    method AttemptAnswer(attempted: Letter, draws: Draws) returns (error: Option<string>)
      modifies this
      ensures var r := Attempt(old(State()), attempted, draws);
        && (r.Success? ==> error.None? && State() == r.value)
        && (r.Failure? ==> error == Some(r.error) && State() == old(State()))
    {
      if currentStep.None? {
        return None;
      }
      var state := State();
      var current := currentStep.value;
      var isCorrect := CheckIsCorrectAttempt(currentStep, Some(attempted));
      if isCorrect.Failure? {
        return Some(isCorrect.error);
      }
      var newHistory := steps + [Record(current, attempted, isCorrect.value)];
      var newStep := MakeNewStep(state, Some(attempted), draws);
      if newStep.Failure? {
        return Some(newStep.error);
      }
      steps := newHistory;
      if isCorrect.value && settings.gameMode == Sequence && GameIsOver(state.steps, newHistory, alphabet) {
        started := false;
        finished := true;
      } else {
        currentStep := Some(newStep.value);
      }
      return None;
    }
  }
}
