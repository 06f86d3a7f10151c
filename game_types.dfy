/** The settings of a memory game (src/app/features/MemoryGame/types.ts): five string
    enums and the `GameSettings` record built from them. */
module GameTypes {
  import opened Wrappers
  import opened Letters

  datatype GameType = Alphabet | Word
  datatype GameMode = Sequence | Random
  datatype GameLevel = Easy | Medium | Hard
  datatype LanguageMode = Thai | English
  datatype InputMode = Options | Input

  /** `Object.values(E)` of each enum: its members in declaration order. */
  const AllGameTypes: seq<GameType> := [Alphabet, Word]
  const AllGameModes: seq<GameMode> := [Sequence, Random]
  const AllGameLevels: seq<GameLevel> := [Easy, Medium, Hard]
  const AllLanguageModes: seq<LanguageMode> := [Thai, English]
  const AllInputModes: seq<InputMode> := [Options, Input]

  /** The string value of each enum member. */
  function GameTypeName(t: GameType): string {
    match t
    case Alphabet => "alphabet"
    case Word => "word"
  }

  function GameModeName(m: GameMode): string {
    match m
    case Sequence => "sequence"
    case Random => "random"
  }

  function GameLevelName(l: GameLevel): string {
    match l
    case Easy => "easy"
    case Medium => "medium"
    case Hard => "hard"
  }

  function LanguageModeName(l: LanguageMode): string {
    match l
    case Thai => "thai"
    case English => "english"
  }

  function InputModeName(m: InputMode): string {
    match m
    case Options => "options"
    case Input => "input"
  }

  /** A game's settings. `numberOfOptions` is optional in the interface; the alphabet types
      are declared required but the store's default settings leave them out, so both are
      optional here. */
  datatype GameSettings = GameSettings(
    gameType: GameType,
    gameMode: GameMode,
    gameLevel: GameLevel,
    languageMode: LanguageMode,
    numberOfOptions: Option<int>,
    inputMode: InputMode,
    thaiAlphabetTypes: Option<seq<LetterType>>)
}
