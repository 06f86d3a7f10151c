# jumdai in Dafny

A model of the core of jumdai, a flashcard app for learning the Thai alphabet.

**The game engine.** At the centre is the engine of the memory game (`memoryGameStore.ts`):
- it builds each step, a prompt letter with answer options, in sequence mode or random mode;
- it judges an attempted answer by the letter's symbol;
- it records every answer with its points;
- its store keeps the game state and replaces it on `startGame`, `endGame` and `attemptAnswer`.

**What the engine relies on.**
- `generateUniqueRandomNumbers`: draws distinct indices, with a set-filling loop and a Fisher-Yates loop.
- The older pure `gameReducer`.
- The two static 41-consonant catalogues.

**Around the engine.** Small converters between text and settings:
- the validation schemas;
- reading game settings from URL search parameters;
- escaping user text;
- the new-game page, which writes settings into URL parameters;
- the alphabet page's rate limiter, file-name sanitiser and catalogue lookup;
- its type filter, kept in the URL;
- its filtered letter list.

**Modules**, one or a few per source file:

| module | models |
|---|---|
| `Wrappers` | `Option` and `Result`. A `Failure` carries the message of the `Error` the source throws. |
| `Letters` | The alphabet entry (`ThaiAlphabet` in `types.ts`/`types.d.ts`), its type enum, and the `find`, `findIndex` and symbol `filter` helpers. |
| `ThaiSymbols`, `ThaiAlphabet` | The catalogue of `utils/thaiAlphabet.ts`. |
| `ConsonantImages`, `Consonants` | The typed catalogue of `utils/thaiAlphabet/consonants.ts`. |
| `Decimal`, `JsNumber`, `JsText` | The JavaScript conversions the validators use: `String(n)`, `Number(s)`, `trim`, `replace` and `length`. |
| `UrlSearchParams` | `URLSearchParams` as a list of name-value pairs. |
| `UniqueNumbers` | `generateUniqueNumbers.ts`. |
| `RandomOrder` | The shuffle `sort(() => Math.random() - 0.5)`. |
| `GameTypes` | The settings enums and the `GameSettings` record of `features/MemoryGame/types.ts`. |
| `MemoryGame` | The engine's functions and the three actions as state transitions. |
| `MemoryGameStores` | The store class. |
| `MemoryGameFacts` | Lemmas about the engine. |
| `MemoryGameReducer`, `GameReducerFacts` | `gameReducer.ts`. |
| `GameSchemas` | `validations/game.schemas.ts`. |
| `Validation` | `utils/validation.utils.ts`. |
| `NewGamePage` | `games/new/page.tsx` and the id check of `games/[gameId]/page.tsx`. |
| `AlphabetActions` | `modules/alphabet/actions.ts`. |
| `AlphabetFilters` | `hooks/useAlphabetFilters.tsx`. |
| `AlphabetList` | `components/AlphabetList.tsx`. |

**Randomness** is a parameter:
- a `Math.random()` result scaled to `[0, n)` is a natural-number draw `d`, taken as `d % n`;
- `Date.now()` is the parameter `now`.

**Where the code departs from the documented design,** the model follows the code:
- A wrong attempt in sequence mode lowers the step's points by one, with no floor at 0.
- Random mode has no 20-question cap and no end when points run out.
- Starting a game whose options cannot be drawn is an error, and the state stays as it was. An empty alphabet is one such case.
- `getCorrectAnswer` throws when the prompt is missing. The model returns an explicit error.
- Distractors are drawn from the whole alphabet, not only from letters of the prompt's type.
- The option shuffle is a sort with a random comparator.
- A finished sequence game keeps its current step.
- `endGame` restores the store's initial state, settings included.
- The alphabet list shows every letter when no type is selected. It shows nothing when some type is selected, because the catalogue it imports (`utils/thaiAlphabet.ts`, not the directory index) has no `type` field.

## Model

| member | source | states |
|---|---|---|
| Letters.ParseLetterType | src/app/types.ts:1-6 | A type read from a string has that string as its name. No type is found when no type has that name. |
| Letters.LetterTypeNameRoundTrip | src/app/types.ts:1-6 | Every `ThaiAlphabetType` value's string reads back as that value. |
| Letters.IndexOfSymbol | src/app/features/MemoryGame/memoryGameStore.ts:95 | `findIndex` by symbol gives the first index holding the symbol, or -1 exactly when no entry holds it. |
| Letters.FindBySymbol | src/app/modules/alphabet/actions.ts:47-49 | `find` by symbol gives an entry of the list with that symbol. It finds nothing exactly when no entry has the symbol. |
| Letters.FindOwnSymbol | src/app/features/MemoryGame/memoryGameStore.ts:95 | When symbols are distinct, each entry's symbol finds that entry, at its own index. |
| Letters.AllLetterTypesComplete | src/app/utils/validation.utils.ts:120 | `Object.values(ThaiAlphabetType)` lists every type value. |
| Letters.WithoutSymbol | src/app/features/MemoryGame/memoryGameStore.ts:66-68 | The `filter` that drops one symbol keeps exactly the entries with another symbol. |
| Letters.WithoutSymbolLength | src/app/features/MemoryGame/memoryGameStore.ts:67 | When symbols are distinct, dropping a symbol removes one entry if the symbol is present and none otherwise. |
| Letters.WithoutSymbolDistinct | src/app/features/MemoryGame/memoryGameStore.ts:67 | Dropping a symbol keeps the symbols distinct. |
| ThaiSymbols.SymbolCharsDistinct | src/app/utils/thaiAlphabet.ts:5-408 | The 41 consonant characters, in catalogue order, are pairwise distinct. |
| ThaiAlphabet.OrdersAreSequential | src/app/utils/thaiAlphabet.ts:3-417 | The catalogue has 41 entries, and the i-th has `order` i+1. |
| ThaiAlphabet.OrdersIncrease | src/app/utils/thaiAlphabet.ts:3-417 | Orders strictly increase along the catalogue, so they are unique. |
| ThaiAlphabet.ConsonantClasses | src/app/utils/thaiAlphabet.ts:3-417 | Every entry has `isConsonant: true` and no `type`. The group is middle for orders 1-9, high for 10-19 and low for 20-41. |
| ThaiAlphabet.SymbolsAreChars | src/app/utils/thaiAlphabet.ts:3-417 | Each entry's symbol is the one character at its position in the shared consonant list. |
| ThaiAlphabet.SymbolsDistinct | src/app/utils/thaiAlphabet.ts:5-408 | The catalogue's symbols are pairwise distinct. |
| ThaiAlphabet.RomanizationNotUnique | src/app/utils/thaiAlphabet.ts:106-219 | 'ฉ' and 'ช' are both romanized "chaw ching", so a letter's identity is its symbol. |
| ThaiAlphabet.ImageSrcNotUnique | src/app/utils/thaiAlphabet.ts:106-223 | Two different symbols, 'ฉ' and 'ช', share the image '/chaw-ching.webp'. |
| ConsonantImages.Hyphenate | src/app/utils/thaiAlphabet/consonants.ts:13-17 | Spaces become '-' and every other character is kept, at the same position. |
| ConsonantImages.ImageNameAt | src/app/utils/thaiAlphabet/consonants.ts:13-17 | Each listed image is '/' + prefix + '-' + transliteration + '.webp', with spaces hyphenated. |
| ConsonantImages.ImagePositionAt | src/app/utils/thaiAlphabet/consonants.ts:17-497 | Each image name identifies its own position in the list. |
| ConsonantImages.ImagesDistinct | src/app/utils/thaiAlphabet/consonants.ts:17-497 | The 41 image names are pairwise distinct. |
| Consonants.OrdersAreSequential | src/app/utils/thaiAlphabet/consonants.ts:7-500 | The typed catalogue has 41 entries, and the i-th has `order` i+1. |
| Consonants.ConsonantClasses | src/app/utils/thaiAlphabet/consonants.ts:7-500 | Every entry has `type` Consonant. The group is Middle for orders 1-9, High for 10-19 and Low for 20-41. |
| Consonants.SymbolsAreChars | src/app/utils/thaiAlphabet/consonants.ts:7-500 | Each entry's symbol is the one character at its position in the shared consonant list. |
| Consonants.SymbolsMatchThaiAlphabet | src/app/utils/thaiAlphabet/consonants.ts:9-489 | The typed catalogue has the same symbols as `thaiAlphabet.ts`, in the same order. |
| Consonants.SymbolsDistinct | src/app/utils/thaiAlphabet/consonants.ts:9-489 | The typed catalogue's symbols are pairwise distinct. |
| Consonants.ExamplePrefixes | src/app/utils/thaiAlphabet/consonants.ts:7-500 | Every `thaiExamplePrefix` is the entry's symbol followed by 'อ'. |
| Consonants.NamesListed | src/app/utils/thaiAlphabet/consonants.ts:7-500 | Each entry's prefix, transliteration and image are the ones listed at its position. |
| Consonants.ImageNames | src/app/utils/thaiAlphabet/consonants.ts:13-17 | Every `imageSrc` is the file name built from the entry's own prefix and transliteration. |
| Consonants.ImagesDistinct | src/app/utils/thaiAlphabet/consonants.ts:17-497 | Image names are pairwise distinct, unlike in the older catalogue. |
| Decimal.NatToString | src/app/games/new/page.tsx:31-33 | `toString()` of a whole number is all digits, and has no leading zero except for 0 itself. |
| Decimal.IntToString | src/app/games/new/page.tsx:31-33 | A negative number's text starts with '-', and a non-negative one's is all digits. |
| Decimal.DigitsValueOfNatToString | src/app/validations/game.schemas.ts:26-27 | Reading the digits of a number's text gives the number back. |
| JsNumber.StringToNumber | src/app/validations/game.schemas.ts:33-34 | `Number(s)`, the coercion of `z.coerce.number()`. A finite result has a positive denominator. |
| JsNumber.DigitsToNumber | src/app/validations/game.schemas.ts:33-34 | An all-digit string coerces to the number its digits spell. |
| JsNumber.MinusDigitsToNumber | src/app/validations/game.schemas.ts:33-34 | '-' followed by digits coerces to the negated number. |
| JsNumber.IntToNumber | src/app/validations/game.schemas.ts:33-34 | Coercing the text of any integer gives that integer back. |
| JsNumber.BlankIsZero | src/app/validations/game.schemas.ts:33-34 | Empty or whitespace-only text coerces to 0. |
| JsNumber.NotANumber | src/app/validations/game.schemas.ts:33-34 | Trimmed text that starts with no digit, '.', '+' or '-' and is not "Infinity" coerces to NaN. |
| JsNumber.Radix | src/app/validations/game.schemas.ts:33-34 | A `0x`/`0o`/`0b` literal coerces to a non-negative whole number, or to NaN. |
| JsText.Trim | src/app/validations/game.schemas.ts:94 | The result has no whitespace at either end. It is a slice of the input with only whitespace cut off before and after it. |
| JsText.TrimIdempotent | src/app/validations/game.schemas.ts:94 | Trimming twice is trimming once. |
| JsText.TrimEmpty | src/app/validations/game.schemas.ts:94 | Trimming gives "" exactly when the text is all whitespace. |
| JsText.TrimTrimmed | src/app/utils/validation.utils.ts:153 | Already trimmed text is left as it is. |
| JsText.Utf16Length | src/app/validations/game.schemas.ts:95-100 | `length` counts one or two UTF-16 units per character. |
| JsText.ReplaceAll | src/app/utils/validation.utils.ts:145-150 | After a global replace, the replaced character is gone unless the replacement holds it. |
| JsText.ReplaceAllAbsent | src/app/utils/validation.utils.ts:145-150 | Replacing a character that does not occur changes nothing. |
| JsText.ReplaceAllChars | src/app/utils/validation.utils.ts:145-150 | A replace introduces no character that is in neither the text nor the replacement. |
| JsText.StripTags | src/app/utils/validation.utils.ts:141 | Removing tags keeps only characters of the input. Text with no '<' is unchanged. |
| JsText.StripTagsLeavesNoTag | src/app/utils/validation.utils.ts:141 | After tags are removed, no `<...>` substring is left. |
| UrlSearchParams.GetAll | src/app/modules/alphabet/hooks/useAlphabetFilters.tsx:11 | `getAll(key)` holds exactly the values paired with the key, in order. |
| UrlSearchParams.GetAllAppend | src/app/games/new/page.tsx:24-43 | `getAll` over appended pairs is the earlier values followed by the new ones. |
| UrlSearchParams.LastValue | src/app/utils/validation.utils.ts:30-37 | The value a key keeps after every pair assigns in turn is the last of its `getAll` values, and none when it has none. |
| UrlSearchParams.LastValueAppend | src/app/utils/validation.utils.ts:30-37 | A key's last value over two joined lists is the second list's, or the first's when the second has none. |
| UrlSearchParams.LastValueSnoc | src/app/utils/validation.utils.ts:30-37 | An appended pair gives its key a new last value and leaves other keys alone. |
| UrlSearchParams.Delete | src/app/modules/alphabet/hooks/useAlphabetFilters.tsx:24 | `delete(key)` keeps exactly the pairs under other keys. |
| UrlSearchParams.DeleteRemovesKey | src/app/modules/alphabet/hooks/useAlphabetFilters.tsx:24 | After `delete(key)`, the key has no value. |
| UrlSearchParams.DeleteKeepsOthers | src/app/modules/alphabet/hooks/useAlphabetFilters.tsx:24 | `delete(key)` leaves every other key's values as they were. |
| UrlSearchParams.FormEncode | src/app/games/new/page.tsx:45 | `toString()` encoding writes only unreserved characters, '+' and '%', and leaves unreserved text as it is. |
| UrlSearchParams.Utf8 | src/app/games/new/page.tsx:45 | A character encodes to 1 to 4 bytes, each below 256. |
| UrlSearchParams.PercentEncode | src/app/games/new/page.tsx:45 | Each byte becomes three characters, '%' and two hex digits. |
| UrlSearchParams.EncodeChar | src/app/games/new/page.tsx:45 | A character encodes to unreserved characters, '+' and '%'. An unreserved character stays as it is. |
| UrlSearchParams.Pair | src/app/games/new/page.tsx:45 | A pair of unreserved texts is written `name=value`. |
| UrlSearchParams.EncodedHasNoSeparator | src/app/games/new/page.tsx:45 | An encoded name or value holds no '&' or '=', so the query string splits back into its pairs. |
| UniqueNumbers.GenerateUniqueRandomNumbers | src/app/utils/generateUniqueNumbers.ts:9-36 | It throws exactly when length > max. Otherwise it gives [] when length <= 0 or max <= 0, and else exactly `length` distinct numbers, each below max. |
| UniqueNumbers.GenerateUnique | src/app/utils/generateUniqueNumbers.ts:9-36 | The method, with its two loops, returns what the specification function gives. |
| UniqueNumbers.DrawIntoSet | src/app/utils/generateUniqueNumbers.ts:20-25 | The set loop returns the first `length` distinct residues of the draws, in insertion order. |
| UniqueNumbers.Residues | src/app/utils/generateUniqueNumbers.ts:20-25 | The distinct draws modulo max, in first-seen order, are distinct, below max and come from the draws. |
| UniqueNumbers.ResiduesPrefix | src/app/utils/generateUniqueNumbers.ts:20-25 | Fewer draws give a prefix of the same insertion-ordered set. |
| UniqueNumbers.ShuffleAndTake | src/app/utils/generateUniqueNumbers.ts:29-35 | The swap loop over an array of 0..max-1 returns the first `length` entries of the shuffled pool. |
| UniqueNumbers.Range | src/app/utils/generateUniqueNumbers.ts:29 | The pool 0..max-1 has max distinct numbers, each below max. |
| UniqueNumbers.SwapKeeps | src/app/utils/generateUniqueNumbers.ts:32 | One swap keeps the pool a permutation, keeps it distinct and keeps every bound. |
| UniqueNumbers.Shuffle | src/app/utils/generateUniqueNumbers.ts:30-33 | The Fisher-Yates pass keeps the pool's length. |
| UniqueNumbers.ShufflePermutes | src/app/utils/generateUniqueNumbers.ts:29-33 | The Fisher-Yates pass keeps the pool a permutation, distinct and within bounds. |
| RandomOrder.Positions | src/app/features/MemoryGame/memoryGameStore.ts:77 | The positions a random-comparator sort chooses are a permutation of 0..n-1. |
| RandomOrder.Reorder | src/app/features/MemoryGame/memoryGameStore.ts:77 | The shuffled options have as many entries as the input. |
| RandomOrder.ReorderMembers | src/app/features/MemoryGame/memoryGameStore.ts:77 | The shuffle keeps exactly the input's members. |
| RandomOrder.ReorderKeepsDistinct | src/app/features/MemoryGame/gameReducer.ts:59 | The shuffle keeps distinct keys distinct. |
| MemoryGame.FindAnswer | src/app/features/MemoryGame/memoryGameStore.ts:45-51 | The `find` over the options throws (a `Failure`) on a missing prompt, unless there are no options. A found option is an option with the prompt's symbol. With all options present, nothing is found exactly when no option has the symbol. |
| MemoryGame.GetCorrectAnswer | src/app/features/MemoryGame/memoryGameStore.ts:45-51 | No step gives no answer. A step with options and no prompt is an error. A found answer is an option with the prompt's symbol. |
| MemoryGame.CheckIsCorrectAttempt | src/app/features/MemoryGame/memoryGameStore.ts:53-55 | Correct exactly when the attempted symbol equals the prompt's. It is an error exactly when the step has no prompt. With no step, it is correct exactly when there is no attempt either. |
| MemoryGame.TotalStepPoints | src/app/features/MemoryGame/memoryGameStore.ts:57-59 | The sum of the records' points is non-negative when every record's points are. |
| MemoryGame.CorrectSteps | src/app/features/MemoryGame/memoryGameStore.ts:228 | Keeps exactly the correct records. |
| MemoryGameFacts.CorrectStepsAppend | src/app/features/MemoryGame/memoryGameStore.ts:228 | The correct records of joined histories are those of the first, then those of the second, in order. |
| MemoryGame.InsertByOrder | src/app/features/MemoryGame/memoryGameStore.ts:90 | Inserting adds exactly the one letter. |
| MemoryGame.InsertKeepsSorted | src/app/features/MemoryGame/memoryGameStore.ts:90 | Inserting into a list sorted by `order` keeps it sorted. |
| MemoryGame.SortByOrder | src/app/features/MemoryGame/memoryGameStore.ts:90 | The sort by `order` is a permutation of the alphabet, and it is sorted. |
| MemoryGame.Available | src/app/features/MemoryGame/memoryGameStore.ts:64-68 | The distractor pool is the alphabet without the prompt's symbol, or the whole alphabet when there is no prompt. |
| MemoryGame.Pick | src/app/features/MemoryGame/memoryGameStore.ts:72-74 | Mapping indices to letters gives one alphabet letter per index. |
| MemoryGame.MakeRandomOptions | src/app/features/MemoryGame/memoryGameStore.ts:61-80 | It fails exactly when `numberOfOptions - 1` exceeds the pool. Otherwise it gives `numberOfOptions` options (at least 1), among them the prompt, and every other option comes from the pool. An absent prompt comes last, as `sort` places `undefined`. |
| MemoryGame.NextInSequence | src/app/features/MemoryGame/memoryGameStore.ts:89-98 | The next prompt, when there is one, is an alphabet letter. |
| MemoryGame.MakeSequenceStep | src/app/features/MemoryGame/memoryGameStore.ts:82-120 | It fails exactly when the options cannot be drawn, or when the current step has no prompt. The step carries the settings' input mode. |
| MemoryGame.MakeRandomStep | src/app/features/MemoryGame/memoryGameStore.ts:122-157 | It fails exactly when more options than letters are asked for, or when a retried step has no prompt. The step carries the settings' input mode. |
| MemoryGame.MakeNewStep | src/app/features/MemoryGame/memoryGameStore.ts:159-168 | The game mode selects the sequence builder or the random builder. |
| MemoryGame.Record | src/app/features/MemoryGame/memoryGameStore.ts:205-210 | An answer record keeps the step's points if correct and gets 0 if not. |
| MemoryGame.Start | src/app/features/MemoryGame/memoryGameStore.ts:175-184 | It fails exactly when the first step cannot be built. Otherwise the game state is the given one, started, with a current step. |
| MemoryGame.End | src/app/features/MemoryGame/memoryGameStore.ts:185-190 | Every field is restored to the initial state, with `started` false. |
| MemoryGame.Attempt | src/app/features/MemoryGame/memoryGameStore.ts:191-246 | An answer never changes the alphabet or the settings. |
| MemoryGameStores.MemoryGameStore.constructor | src/app/features/MemoryGame/memoryGameStore.ts:170-174 | A new store holds the initial state. |
| MemoryGameStores.MemoryGameStore.StartGame | src/app/features/MemoryGame/memoryGameStore.ts:175-184 | The fields become the started state for the given state, or for the initial one when none is given. If building the step throws, it returns the error and the fields stay as they were. |
| MemoryGameStores.MemoryGameStore.EndGame | src/app/features/MemoryGame/memoryGameStore.ts:185-190 | The fields become the ended state. |
| MemoryGameStores.MemoryGameStore.AttemptAnswer | src/app/features/MemoryGame/memoryGameStore.ts:191-246 | The fields become the state after the answer. If building the next step throws, it returns the error and the fields stay as they were. |
| MemoryGameFacts.TotalStepPointsAppend | src/app/features/MemoryGame/memoryGameStore.ts:57-59 | The total over joined histories is the sum of the totals. |
| MemoryGameFacts.InsertKeepsDistinct | src/app/features/MemoryGame/memoryGameStore.ts:90 | Inserting a letter with a new symbol keeps symbols distinct. |
| MemoryGameFacts.SortKeepsDistinct | src/app/features/MemoryGame/memoryGameStore.ts:90 | Sorting keeps symbols distinct. |
| MemoryGameFacts.SequenceStartsAtSmallestOrder | src/app/features/MemoryGame/memoryGameStore.ts:90-98 | With no attempt, the sequence prompt is the alphabet letter with the smallest `order`. |
| MemoryGameFacts.SequenceAdvances | src/app/features/MemoryGame/memoryGameStore.ts:95-98 | After the i-th letter of the sorted alphabet comes the (i+1)-th, and no letter after the last. |
| MemoryGameFacts.SequenceRestarts | src/app/features/MemoryGame/memoryGameStore.ts:95-98 | An attempted letter missing from the alphabet restarts at the first letter. |
| MemoryGameFacts.PickDistinct | src/app/features/MemoryGame/memoryGameStore.ts:72-74 | Distinct indices into distinct letters give options with distinct symbols. |
| MemoryGameFacts.AppendPrompt | src/app/features/MemoryGame/memoryGameStore.ts:77 | Adding a prompt whose symbol no option has keeps the options distinct. |
| MemoryGameFacts.RandomOptionsDistinct | src/app/features/MemoryGame/memoryGameStore.ts:61-80 | Over an alphabet with distinct symbols, the options never repeat a symbol. |
| MemoryGameFacts.CorrectAnswerIsPrompt | src/app/features/MemoryGame/memoryGameStore.ts:45-55 | When the prompt is among distinct options, the correct answer is the prompt. An attempt is correct exactly when it has that answer's symbol. |
| MemoryGameFacts.SequenceFirstStep | src/app/features/MemoryGame/memoryGameStore.ts:61-110 | See the first-step bullet list below this table. |
| MemoryGameFacts.AttemptWithoutStep | src/app/features/MemoryGame/memoryGameStore.ts:199-201 | With no current step, an answer leaves the state unchanged. |
| MemoryGameFacts.AttemptRecordsOnce | src/app/features/MemoryGame/memoryGameStore.ts:203-215 | See the answer-record bullet list below this table. |
| MemoryGameFacts.SequenceWrongAttempt | src/app/features/MemoryGame/memoryGameStore.ts:112-118 | After a wrong answer in sequence mode, the step keeps its prompt and options. Its points drop by exactly 1, with no floor. The game neither ends nor stops. |
| MemoryGameFacts.SequenceRightAttempt | src/app/features/MemoryGame/memoryGameStore.ts:219-238 | See the right-answer bullet list below this table. |
| MemoryGameFacts.RightAnswerCounted | src/app/features/MemoryGame/memoryGameStore.ts:227-230 | A right answer appends exactly itself to the correct records, so their count, which ends a sequence game, rises by one. |
| MemoryGameFacts.SequencePointsNeverRise | src/app/features/MemoryGame/memoryGameStore.ts:112-117 | In sequence mode a step's points never rise. |
| MemoryGameFacts.RandomFreshStep | src/app/features/MemoryGame/memoryGameStore.ts:129-147 | See the random-step bullet list below this table. |
| MemoryGameFacts.RandomAttemptRerolls | src/app/features/MemoryGame/memoryGameStore.ts:140-147 | In random mode, an answer that carries a symbol always installs a freshly drawn step. |
| MemoryGameReducer.MergeSettings | src/app/features/MemoryGame/gameReducer.ts:85-88 | The payload overrides the old settings. The old optional fields survive where the payload leaves them out. |
| MemoryGameReducer.LastCorrectIndex | src/app/features/MemoryGame/gameReducer.ts:21 | The index of the last correct step, or -1 exactly when no step is correct. |
| MemoryGameReducer.NextIndex | src/app/features/MemoryGame/gameReducer.ts:21-34 | It fails exactly when the last correct step has no prompt. Otherwise the index is within 0..catalogue size. |
| MemoryGameReducer.PickLetters | src/app/features/MemoryGame/gameReducer.ts:54-56 | One catalogue letter per index. |
| MemoryGameReducer.SequenceOptions | src/app/features/MemoryGame/gameReducer.ts:49-59 | It fails exactly when `numberOfOptions - 1` exceeds the letters other than the prompt. |
| MemoryGameReducer.RandomOptions | src/app/features/MemoryGame/gameReducer.ts:65-69 | It fails exactly when more options than letters are asked for. The options are catalogue letters. |
| MemoryGameReducer.Start | src/app/features/MemoryGame/gameReducer.ts:13-89 | A started game has the merged settings, keeps its history, and gets a fresh, unanswered step without rewards. A game that does not start happens only in sequence mode, and resets the step, the history and `started`. |
| MemoryGameReducer.End | src/app/features/MemoryGame/gameReducer.ts:90-96 | `started` is false, there is no step, the history is empty, and the settings are untouched. |
| MemoryGameReducer.AttemptAnswer | src/app/features/MemoryGame/gameReducer.ts:98-135 | See the reducer-answer bullet list below this table. |
| MemoryGameReducer.Reduce | src/app/features/MemoryGame/gameReducer.ts:11-140 | `end` gives the ended state. An unknown action returns the state unchanged. |
| MemoryGameReducer.GameReducer | src/app/features/MemoryGame/gameReducer.ts:137-138 | An unknown action returns the state unchanged. |
| GameReducerFacts.StartSequenceFresh | src/app/features/MemoryGame/gameReducer.ts:19-46 | With no correct step, sequence mode prompts the first catalogue entry. |
| GameReducerFacts.StartSequenceAfter | src/app/features/MemoryGame/gameReducer.ts:19-46 | After a correct i-th entry, the prompt is entry i+1. Past the end, the step, the history and `started` are reset. |
| GameReducerFacts.PickLettersDistinct | src/app/features/MemoryGame/gameReducer.ts:54-56 | Distinct indices into distinct letters give distinct letters. |
| GameReducerFacts.PromptAndOthers | src/app/features/MemoryGame/gameReducer.ts:49-59 | The drawn others plus the prompt are distinct catalogue letters. |
| GameReducerFacts.SequenceOptionsShape | src/app/features/MemoryGame/gameReducer.ts:49-61 | It fails exactly when more options than catalogue letters are asked for. Otherwise there are `numberOfOptions` distinct catalogue options (at least 1), the prompt among them. |
| GameReducerFacts.StartSequenceOptions | src/app/features/MemoryGame/gameReducer.ts:49-62 | A sequence start offers the prompt plus `numberOfOptions - 1` distinct others, 3 options in all by default. |
| GameReducerFacts.StartRandomOptions | src/app/features/MemoryGame/gameReducer.ts:63-75 | A random start offers `numberOfOptions` distinct catalogue entries, with the prompt among them. |
| GameReducerFacts.FirstSequenceStart | src/app/features/MemoryGame/gameReducer.ts:13-89 | The first sequence start with default options prompts 'ก' with 3 distinct options. |
| GameSchemas.IntegerBetween | src/app/validations/game.schemas.ts:28 | It accepts exactly the integers within the bounds, and returns them. |
| GameSchemas.GameIdSchema | src/app/validations/game.schemas.ts:25-28 | It accepts exactly the non-empty all-digit strings whose value lies in [1000, 99999], and returns that value. |
| GameSchemas.GameIdOfText | src/app/validations/game.schemas.ts:25-28 | A number's text is accepted exactly when the number is in range, and reads back as the number. |
| GameSchemas.GameIdAccepted | src/app/validations/game.schemas.ts:25-28 | '1234' and '99999' pass with their values. |
| GameSchemas.GameIdRefused | src/app/validations/game.schemas.ts:25-28 | '999', '100000', 'abc' and '12a34' fail. |
| GameSchemas.NumberOfOptionsSchema | src/app/validations/game.schemas.ts:33-42 | An accepted value lies in 2..6. Undefined gives 3. A number is accepted exactly in 2..6, and returned unchanged. A text is accepted exactly when `Number(text)` is an integer in 2..6, and gives that integer. |
| GameSchemas.NumberOfOptionsText | src/app/validations/game.schemas.ts:33-42 | A numeric string is judged like the number it spells. |
| GameSchemas.NumberOfOptionsNumbers | src/app/validations/game.schemas.ts:33-42 | 2, 4 and 6 pass. 1 and 7 fail. Undefined gives 3. |
| GameSchemas.NumberOfOptionsTexts | src/app/validations/game.schemas.ts:33-42 | '3' and '5' pass. 'abc' fails. |
| GameSchemas.ParseLetterTypes | src/app/validations/game.schemas.ts:48 | A list of strings parses exactly when each is a type name, and then each value has that name. |
| GameSchemas.ParseLetterTypeNames | src/app/validations/game.schemas.ts:48 | Type names parse back to the types. |
| GameSchemas.ThaiAlphabetTypesSchema | src/app/validations/game.schemas.ts:47-52 | Undefined gives [Consonant, Vowel]. A list is accepted exactly when it is non-empty and all of it is type names. The result keeps the input's order. |
| GameSchemas.ThaiAlphabetTypesRoundTrip | src/app/validations/game.schemas.ts:47-52 | A non-empty list of types passes as itself. |
| GameSchemas.ThaiAlphabetTypesExamples | src/app/validations/game.schemas.ts:47-52 | An empty list and an unknown type both fail. |
| GameSchemas.ParseEnum | src/app/validations/game.schemas.ts:58-72 | `nativeEnum` accepts exactly the names of enum values, and returns the named value. |
| GameSchemas.ParseEnumName | src/app/validations/game.schemas.ts:58-72 | Each enum value's name is accepted as that value. |
| GameSchemas.Require | src/app/validations/game.schemas.ts:74 | A required field passes exactly when it is present. |
| GameSchemas.OptionalNumberOfOptions | src/app/validations/game.schemas.ts:73 | An absent count stays absent. A present count is judged by the options schema. |
| GameSchemas.ToRaw | src/app/validations/game.schemas.ts:57-75 | Settings written as raw input carry each enum's name and the count. |
| GameSchemas.GameSettingsSchema | src/app/validations/game.schemas.ts:57-75 | An accepted object is valid settings whose enums carry the input's names. An unknown game type fails with "Invalid game type". The count and the types passed their own schemas. |
| GameSchemas.EnumNames | src/app/validations/game.schemas.ts:58-72 | Each setting's enum name parses back to that setting. |
| GameSchemas.SettingsSchemaKeepsValid | src/app/validations/game.schemas.ts:57-75 | Valid settings pass unchanged. |
| GameSchemas.UserTextInputSchema | src/app/validations/game.schemas.ts:93-103 | It accepts exactly the text whose trimmed form has 1 to 100 UTF-16 units and no `<...>`, and returns the trimmed text. |
| GameSchemas.UserTextInputFacts | src/app/validations/game.schemas.ts:93-103 | Whitespace-only text fails, and accepted text is accepted again as itself. |
| GameSchemas.GameFormSchema | src/app/validations/game.schemas.ts:108-116 | It accepts exactly what the settings schema accepts. Sequence mode drops the count, and other modes are unchanged. |
| GameSchemas.GameFormIdempotent | src/app/validations/game.schemas.ts:108-116 | Applying the form schema to its own output changes nothing. |
| Validation.ParseEnumValue | src/app/utils/validation.utils.ts:85-98 | A present name of an enum value gives that value. An absent, empty or unknown name gives the default. |
| Validation.ParseNumberOfOptions | src/app/utils/validation.utils.ts:103-111 | The result is always in 2..6. An absent, empty or non-numeric value gives 3. Any other value gives the integer `Number(value)` coerces it to when that integer is in 2..6, and 3 otherwise. |
| Validation.ParseNumberOfOptionsText | src/app/utils/validation.utils.ts:103-111 | An integer's text gives that integer when it is in 2..6, and 3 otherwise. |
| Validation.ParseNumberOfOptionsLeadingZero | src/app/utils/validation.utils.ts:103-111 | Text that is not an integer's canonical form is still coerced: "04" gives 4. |
| Validation.RecognisedTypes | src/app/utils/validation.utils.ts:126-128 | The kept values are type names from the input. Every type name in the input is kept. |
| Validation.RecognisedTypesAppend | src/app/utils/validation.utils.ts:126-128 | The types recognised in a concatenation are those of the first part followed by those of the second. With the one-value case, this fixes the input order and multiplicity of the recognised values. |
| Validation.ParseThaiAlphabetTypes | src/app/utils/validation.utils.ts:116-134 | The result is never empty. An absent value gives all four types in declared order. Otherwise it gives the recognised values in input order, or all four when none is recognised. |
| Validation.ThaiAlphabetTypesRoundTripOrEmpty | src/app/utils/validation.utils.ts:130-132 | The types schema rejects exactly the empty list, so a non-empty recognised list passes as itself. |
| Validation.ParamsObject | src/app/utils/validation.utils.ts:28-37 | The `forEach` gives 'alphabet-type' all of its values and every other key a single value. |
| Validation.ParamsObjectLookup | src/app/utils/validation.utils.ts:30-37 | A key is in the object exactly when it has a value, and then holds its last value. |
| Validation.OptionalString | src/app/validations/game.schemas.ts:81-86 | An optional string field passes when absent or a single string, and fails on a list. |
| Validation.SearchParamsSchema | src/app/validations/game.schemas.ts:80-88 | An object whose only list is under 'alphabet-type' always passes. |
| Validation.SettingsFrom | src/app/utils/validation.utils.ts:43-71 | The settings built from the parameters are valid, and always carry a count and types. |
| Validation.EnumValuesRoundTrip | src/app/utils/validation.utils.ts:44-68 | The name of every enum value reads back as that value, whatever the default. |
| Validation.ParseGameSettingsFromSearchParams | src/app/utils/validation.utils.ts:23-80 | The loop over the pairs and the validation that follows never throw, and return the settings the parameters specify. |
| Validation.ReadParams | src/app/utils/validation.utils.ts:40 | Each field is its key's last value. 'alphabet-type' holds all of its values, or nothing. |
| Validation.SearchParamsOfObject | src/app/utils/validation.utils.ts:28-40 | The object built from any parameters passes the search-parameter schema. |
| Validation.ParseReadsEachKey | src/app/utils/validation.utils.ts:23-80 | The settings are read key by key, each falling back to its default. |
| Validation.EmptyParamsGiveDefaults | src/app/utils/validation.utils.ts:23-80 | Empty parameters give the default settings, with 3 options and all four types. |
| Validation.Escape | src/app/utils/validation.utils.ts:144-150 | Escaped text has no '<', '>', '"', "'" or '/'. |
| Validation.EscapeMarkup | src/app/utils/validation.utils.ts:145-147 | After escaping '&', '<' and '>', no '<' or '>' is left. |
| Validation.EscapeQuotes | src/app/utils/validation.utils.ts:148-150 | After escaping quotes and '/', none is left. |
| Validation.EscapeQuotesKeepsMarkup | src/app/utils/validation.utils.ts:148-150 | Escaping quotes brings back no '<' or '>'. |
| Validation.EscapePlain | src/app/utils/validation.utils.ts:144-150 | Text with nothing to escape is unchanged. |
| Validation.SanitizedIsSafe | src/app/utils/validation.utils.ts:139-154 | Sanitised text is trimmed and has no '<', '>', '"', "'" or '/'. |
| Validation.SanitizeKeepsPlainText | src/app/utils/validation.utils.ts:139-154 | Trimmed text without `< > & " ' /` is unchanged. This includes Thai text and ''. |
| Validation.GetValidationErrorMessage | src/app/utils/validation.utils.ts:159-170 | A validation error gives its first message, or 'Validation error' if it has none. An `Error` gives its message. Anything else gives 'An unexpected error occurred'. |
| NewGamePage.NumberOptionsParam | src/app/games/new/page.tsx:31-33 | 'number-options' is written, as decimal text, exactly when the count is truthy. |
| NewGamePage.AlphabetTypeParams | src/app/games/new/page.tsx:39-43 | One 'alphabet-type' pair per selected type, in order. |
| NewGamePage.BuildParams | src/app/games/new/page.tsx:24-43 | The successive appends and the loop over the types build the parameters the settings specify. |
| NewGamePage.ParamsStartFixed | src/app/games/new/page.tsx:26-29 | The parameters start with level, mode, type and language-mode, in that order. |
| NewGamePage.AlphabetTypeValues | src/app/games/new/page.tsx:39-43 | The type pairs hold exactly the type names under 'alphabet-type', and nothing under other keys. |
| NewGamePage.ParamsValue | src/app/games/new/page.tsx:24-37 | Every key other than 'alphabet-type' holds the value written for it. |
| NewGamePage.HeadValue | src/app/games/new/page.tsx:24-37 | The pairs before the types hold each key's written value. |
| NewGamePage.FixedValue | src/app/games/new/page.tsx:24-29 | The four fixed pairs hold their keys' values and nothing else. |
| NewGamePage.ParamsTypes | src/app/games/new/page.tsx:39-43 | `getAll('alphabet-type')` gives the selected types' names. |
| NewGamePage.HeadHasNoTypes | src/app/games/new/page.tsx:24-37 | No 'alphabet-type' value is written before the loop. |
| NewGamePage.ReadSettingsParams | src/app/games/new/page.tsx:24-43 | Reading the written parameters back gives each field's written value. |
| NewGamePage.RecognisedNames | src/app/games/new/page.tsx:39-43 | Every written type name is recognised again. |
| NewGamePage.ParamsRoundTrip | src/app/games/new/page.tsx:24-43 | Parsing the written parameters gives back the settings, when the count is in 2..6 and types are selected. |
| NewGamePage.SettingsFromWritten | src/app/games/new/page.tsx:24-43 | The written values parse back to the original fields. |
| NewGamePage.GameUrl | src/app/games/new/page.tsx:45 | The target starts with '/games/' followed by the id. |
| NewGamePage.NewGameId | src/app/games/new/page.tsx:21 | The drawn id is below 1000. |
| NewGamePage.NewGameIdRefused | src/app/games/new/page.tsx:21 | No drawn id passes the game id schema. |
| NewGamePage.DrawnGameRefused | src/app/games/new/page.tsx:21 | A game page opened with a drawn id shows an error. |
| NewGamePage.CorrectedGameId | src/app/games/new/page.tsx:21 | The corrected id lies in [1000, 99999]. |
| NewGamePage.CorrectedGameIdAccepted | src/app/games/new/page.tsx:21 | The corrected id's text passes the game id schema as the id. |
| NewGamePage.StartGame | src/app/games/new/page.tsx:12-46 | The target URL is '/games/', the drawn id (below 1000), '?' and the parameters the settings specify. |
| NewGamePage.UrlGameId | src/app/games/new/page.tsx:45 | The id segment of a game URL holds no '?', and the URL is the prefix, the segment and the rest. |
| NewGamePage.GameUrlId | src/app/games/new/page.tsx:45 | The id the game page reads from a built URL is the text of the id it was built with. |
| NewGamePage.StartedGameRefused | src/app/games/new/page.tsx:12-46 | The game `startGame` navigates to never opens: its URL's id fails the game id schema. |
| NewGamePage.CorrectedStartGame | src/app/games/new/page.tsx:12-46 | With the id drawn from [1000, 99999], the target URL carries that id and the parameters the settings specify. |
| NewGamePage.OpenGame | src/app/validations/game.schemas.ts:25-28 | The game page (`games/[gameId]/page.tsx`, lines 20-37) opens exactly when its id passes the game id schema, and then with the parsed settings. |
| NewGamePage.StartedGameOpens | src/app/games/new/page.tsx:12-46 | A game started by the corrected page, with settings the parser accepts, opens from its URL's id with those settings. |
| AlphabetActions.RateLimitStep | src/app/modules/alphabet/actions.ts:20-35 | See the rate-limiter bullet list below this table. |
| AlphabetActions.StepKeepsCountsBounded | src/app/modules/alphabet/actions.ts:20-35 | Counts stay between 1 and 5. |
| AlphabetActions.AllowedCount | src/app/modules/alphabet/actions.ts:20-35 | No more requests are allowed than are made. |
| AlphabetActions.AtMostMaxPerWindow | src/app/modules/alphabet/actions.ts:29-34 | Within one window, an identifier gets at most 5 requests in all. |
| AlphabetActions.RateLimiter.constructor | src/app/modules/alphabet/actions.ts:16 | The map starts empty. |
| AlphabetActions.RateLimiter.CheckRateLimit | src/app/modules/alphabet/actions.ts:20-35 | The answer and the updated map are one step of the limiter. |
| AlphabetActions.RemoveDotDot | src/app/modules/alphabet/actions.ts:41 | Removing '..' only removes characters. |
| AlphabetActions.RemoveSeparators | src/app/modules/alphabet/actions.ts:42 | No '/' or '\\' is left, and clean text is unchanged. |
| AlphabetActions.RemoveInvalidFileChars | src/app/modules/alphabet/actions.ts:43 | No `<>:"\|?*` or U+0000-U+001F is left, and clean text is unchanged. |
| AlphabetActions.SanitizePathComponent | src/app/modules/alphabet/actions.ts:38-45 | The result is trimmed, and holds only input characters that are neither separators nor invalid. |
| AlphabetActions.SanitizeKeepsCleanName | src/app/modules/alphabet/actions.ts:38-45 | A trimmed name with nothing to remove is unchanged. |
| AlphabetActions.DotDotSurvives | src/app/modules/alphabet/actions.ts:41-42 | "./." sanitises to "..", so the result may still hold "..". |
| AlphabetActions.FindAlphabet | src/app/modules/alphabet/actions.ts:47-49 | A found entry is a catalogue entry with the symbol. Nothing is found exactly when no entry has it. |
| AlphabetActions.FindAlphabetOwnSymbol | src/app/modules/alphabet/actions.ts:47-49 | Every catalogue entry is found by its own symbol. |
| AlphabetFilters.RemoveAll | src/app/modules/alphabet/hooks/useAlphabetFilters.tsx:22 | No occurrence of the type is left. Every other value is kept. An absent type leaves the list unchanged. |
| AlphabetFilters.RemoveAllAppend | src/app/modules/alphabet/hooks/useAlphabetFilters.tsx:22 | Filtering a concatenation filters each part and keeps them in order. So the kept types keep their input order and multiplicity. |
| AlphabetFilters.Toggled | src/app/modules/alphabet/hooks/useAlphabetFilters.tsx:17-29 | A present type is removed, and an absent one is appended last. |
| AlphabetFilters.ToggledKeepsOrder | src/app/modules/alphabet/hooks/useAlphabetFilters.tsx:20-25 | Toggling off a present type filters the types before and after any split point separately. So the remaining types stay in their order. |
| AlphabetFilters.KeyPairs | src/app/modules/alphabet/hooks/useAlphabetFilters.tsx:25 | One pair per value, in order. |
| AlphabetFilters.ToggleAlphabetType | src/app/modules/alphabet/hooks/useAlphabetFilters.tsx:13-35 | The `delete`, the loop of appends and the final `delete` produce the toggled parameters. |
| AlphabetFilters.DeleteAbsent | src/app/modules/alphabet/hooks/useAlphabetFilters.tsx:31-34 | Deleting a key with no values changes nothing. |
| AlphabetFilters.ToggleEffect | src/app/modules/alphabet/hooks/useAlphabetFilters.tsx:13-34 | The 'type' values are toggled, and every other pair keeps its place. |
| AlphabetFilters.ToggleLastType | src/app/modules/alphabet/hooks/useAlphabetFilters.tsx:31-34 | Toggling off the only type leaves no 'type' key. |
| AlphabetFilters.ToggleKeepsOtherKeys | src/app/modules/alphabet/hooks/useAlphabetFilters.tsx:14-34 | Other keys keep their values. |
| AlphabetFilters.ToggleTwice | src/app/modules/alphabet/hooks/useAlphabetFilters.tsx:13-34 | Toggling an unselected type twice gives back the selection and the other pairs. |
| AlphabetFilters.DeleteIdempotent | src/app/modules/alphabet/hooks/useAlphabetFilters.tsx:24 | Deleting twice is deleting once. |
| AlphabetFilters.Filters | src/app/modules/alphabet/hooks/useAlphabetFilters.tsx:40-46 | Each flag is set exactly when its type is among the 'type' values. There is no flag for Other. |
| AlphabetFilters.ToggleFlipsFlag | src/app/modules/alphabet/hooks/useAlphabetFilters.tsx:13-46 | Toggling a type flips its flag and leaves the others. |
| AlphabetList.FilteredAlphabet | src/app/modules/alphabet/components/AlphabetList.tsx:14-32 | An entry is kept exactly when its type's flag is set, or when no flag is set. The result is an order-preserving subsequence of the catalogue. |
| AlphabetList.OtherNeverShown | src/app/modules/alphabet/components/AlphabetList.tsx:19-31 | With some flag set, an entry of type 'other' or with no type is never kept. |
| AlphabetList.NothingShown | src/app/modules/alphabet/components/AlphabetList.tsx:14-32 | A list none of whose entries matches the flags shows nothing. |
| AlphabetList.SelectedTypeShowsNothing | src/app/modules/alphabet/components/AlphabetList.tsx:14-32 | With some flag set, the imported catalogue, whose entries have no `type`, shows nothing. |

Contracts too long for one table cell:

**`MemoryGameFacts.SequenceFirstStep`.** Sequence mode, first step, with distinct symbols and `numberOfOptions` no larger than the alphabet:
- the prompt is the letter with the smallest `order`;
- the options are that prompt once plus distinct others from the alphabet;
- the points are the option count;
- the correct answer is the prompt.

**`MemoryGameFacts.AttemptRecordsOnce`.** With a current step, an answer fails exactly when the step has no prompt or the next step fails. Otherwise:
- exactly one record is appended;
- it is correct exactly when the symbols match;
- its points are the step's if correct and 0 if not;
- the total points rise by exactly those points;
- the correct records gain this record exactly when it is correct.

**`MemoryGameFacts.SequenceRightAttempt`.** After a right answer in sequence mode:
- the game finishes exactly when the history was non-empty and the correct records reach the alphabet size;
- finishing sets `started=false` and `finished=true`, keeps the history and keeps the current step;
- otherwise the next letter in order is prompted, and the points carry over.

**`MemoryGameFacts.RandomFreshStep`.** A fresh random step:
- fails exactly when more options than letters are asked for;
- otherwise offers `numberOfOptions` distinct alphabet letters, with the prompt among them;
- its points are the previous step's, or the option count when those are 0 or absent.

**`MemoryGameReducer.AttemptAnswer`.** It fails exactly when there is no step or no prompt. Otherwise:
- exactly one history entry is appended, carrying the attempt;
- `correct` is symbol equality, on the entry and on the current step alike;
- `rewards` gain one reward worth 1 point only when correct.

**`AlphabetActions.RateLimitStep`.**
- An unknown identifier, or one whose window has passed, is allowed, and its entry becomes {count 1, resetTime now + 60000}.
- Inside the window, a request is allowed exactly when the count is below 5, and the count rises by one exactly when it is allowed.
- Other identifiers are untouched.

## Left out

- The React rendering, the context plumbing and the router navigation of the pages and the hook. The target URL and the new parameters are computed, but nothing navigates.
- `generateAlphabetImage` (src/app/modules/alphabet/actions.ts:51-136): its OpenAI call, `fetch`, file writes and cache revalidation are network and filesystem I/O. Only the helpers it calls are modelled.
- `console.info` and `console.error` logging.
- The probability distribution of `Math.random()`. Draws are parameters, and only set and permutation facts are proved.
- `RandomOrder.Reorder`: claims only that the result is a permutation chosen by the draws. A comparator that answers at random leaves the order up to the sort implementation, so no particular order is modelled. The one fixed rule of `Array.prototype.sort`, that an `undefined` element goes last without the comparator being called, is modelled in `MemoryGame.MakeRandomOptions` for an absent prompt.
- `MemoryGameReducer.MergeSettings`: does not tell an omitted optional key from one present with the value `undefined`. Both are `None`, and the old value is kept. In the source, `{...state.settings, ...action.payload}` (src/app/features/MemoryGame/gameReducer.ts:85-88) copies an explicit `undefined` over the old value, and the form schema emits `numberOfOptions: undefined` in sequence mode (src/app/validations/game.schemas.ts:113). Telling the two apart would need a three-way field state throughout the settings.
- `MemoryGame.Start`: the state passed to `startGame` always carries `steps`. In the source, `{...initState, ...gameState}` (src/app/features/MemoryGame/memoryGameStore.ts:178-183) gives a state without `steps` the initial state's list, which need not be empty. The model does not cover that case.
- `UniqueNumbers.GenerateUnique`: requires that the draws give enough distinct residues for the set loop. Without that, the loop only ends with probability 1. The specification function falls back to the Fisher-Yates result when the draws run short.
- `Date.now()` is the parameter `now` of the rate limiter.
- JavaScript numbers are exact integers and fractions in the model. Floating-point rounding, `-0` and integer width are not modelled.
- `NewGamePage.NumberOptionsParam`: the count is an integer, so a NaN count is not modelled.
- `src/app/constants/game.constants.ts` is not part of this model. Its limits are taken from the tests where they fix them: ids at most 99999, options 2 to 6 with default 3, text at least 1 unit, at least one type. The tests leave two limits open. The smallest id lies somewhere from 1000 to 1234: '999' is refused and '1234' accepted. The longest text lies somewhere from 6 to 100 units: 101 units are refused and 'สวัสดี' accepted. The model chooses 1000 and 100. `GameSchemas.GameIdSchema`'s exact lower bound and `GameSchemas.UserTextInputSchema`'s upper bound rest on that choice. `NewGamePage.NewGameIdRefused` holds for any smallest id the tests allow, because every drawn id is below 1000. A failure carries the name of its `VALIDATION_ERROR_MESSAGES` entry, not the text.
- Zod itself. Each schema is its accept, reject and transform behaviour. Of zod's own messages, only the opening words are kept. For example, an invalid enum value fails with "Invalid enum value", without the listed options and the received value. A thrown error is modelled as a `Thrown` value with only the fields the error-message function reads.
- `new URLSearchParams(searchParams.toString())` in the filter hook is a copy of the pairs. That parsing the query string back gives the same pairs is not proved, beyond `UrlSearchParams.EncodedHasNoSeparator`.
- How the framework turns the URL into `searchParams` and `params.gameId`.
- `src/app/utils/thaiAlphabet/index.ts` and the vowels file it joins are not part of this model. No modelled code imports them.
- Behaviour only the tests of a later revision expect:
  - `filterAlphabetByTypes`;
  - the random-mode question cap and point exhaustion;
  - a graceful finish on an empty alphabet;
  - `getCorrectAnswer` returning undefined for a missing prompt.
- The type-only files shape the datatypes, and have nothing to prove.

## Findings

| source | as written | input that shows it | evidently intended | confidence | as-written member | corrected member |
|---|---|---|---|---|---|---|
| src/app/games/new/page.tsx:21 | The new game's id is `Math.floor(Math.random() * 1000)`, from 0 to 999. The game page parses the id with the game id schema (src/app/games/[gameId]/page.tsx:24), which rejects anything below 1000. | Any draw, for example one giving id 42. The URL `/games/42?...` opens the game page, which shows an error instead of the game. | Draw the id from the range the schema accepts, [1000, 99999], as `NewGamePage.CorrectedStartGame` does. | not executed | NewGamePage.StartedGameRefused | NewGamePage.StartedGameOpens |
