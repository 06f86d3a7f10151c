/** The validation schemas of src/app/validations/game.schemas.ts, each as the function
    from its input to the accepted (and transformed) value or a failure. The constants of
    src/app/constants/game.constants.ts follow its tests; where they leave a range open
    (the smallest id, 1000 to 1234; the longest text, 6 to 100) one value is chosen; the texts of its
    `VALIDATION_ERROR_MESSAGES` are not part of this model and a failure names the constant
    instead. */
module GameSchemas {
  import opened Wrappers
  import opened Decimal
  import opened JsText
  import opened JsNumber
  import opened Letters
  import opened GameTypes

  const GameIdMin := 1000
  const GameIdMax := 99999
  const MinNumberOfOptions := 2
  const MaxNumberOfOptions := 6
  const DefaultNumberOfOptions := 3
  const MinAlphabetTypesSelected := 1
  const MinTextInputLength := 1
  const MaxTextInputLength := 100

  const InvalidGameId := "VALIDATION_ERROR_MESSAGES.INVALID_GAME_ID"
  const NoAlphabetTypesSelected := "VALIDATION_ERROR_MESSAGES.NO_ALPHABET_TYPES_SELECTED"
  const TextTooShort := "VALIDATION_ERROR_MESSAGES.TEXT_TOO_SHORT"
  const TextTooLong := "VALIDATION_ERROR_MESSAGES.TEXT_TOO_LONG"
  const HtmlNotAllowed := "HTML tags are not allowed"
  const NotANumberMessage := "Expected number, received nan"
  const NotAnIntegerMessage := "Expected integer, received float"
  /** The opening words of zod's enum message; the options and received value it lists are left out. */
  const InvalidEnumValue := "Invalid enum value"

  /** `z.number().int().min(lo).max(hi)` on a Number. */
  function IntegerBetween(x: Number, lo: int, hi: int, tooSmall: string, tooBig: string): (r: Result<int>)
    ensures r.Success? <==> IsInteger(x) && lo <= x.num / x.den <= hi
    ensures r.Success? ==> r.value == x.num / x.den
  {
    if x.NaN? then Failure(NotANumberMessage)
    else if !IsInteger(x) then Failure(NotAnIntegerMessage)
    else if x.num / x.den < lo then Failure(tooSmall)
    else if x.num / x.den > hi then Failure(tooBig)
    else Success(x.num / x.den)
  }

  /** `gameIdSchema`: a string of ASCII digits (`^\d+$`), read as a Number, that is a whole
      number from `GameIdMin` to `GameIdMax`. */
  function GameIdSchema(s: string): (r: Result<int>)
    ensures r.Success? <==> s != [] && AllDigits(s) && GameIdMin <= DigitsValue(s) <= GameIdMax
    ensures r.Success? ==> r.value == DigitsValue(s)
  {
    if s == [] || !AllDigits(s) then Failure(InvalidGameId)
    else
      DigitsToNumber(s);
      IntegerBetween(StringToNumber(s), GameIdMin, GameIdMax,
        "Number must be greater than or equal to 1000", "Number must be less than or equal to 99999")
  }

  /** The decimal text of a whole number is a game id exactly when the number is in range. */
  lemma GameIdOfText(n: nat)
    ensures GameIdSchema(NatToString(n)).Success? <==> GameIdMin <= n <= GameIdMax
    ensures GameIdSchema(NatToString(n)).Success? ==> GameIdSchema(NatToString(n)).value == n
  {
    DigitsValueOfNatToString(n);
  }

  /** The ids the schema's own cases accept: "1234" and "99999". */
  lemma GameIdAccepted()
    ensures GameIdSchema("1234") == Success(1234)
    ensures GameIdSchema("99999") == Success(99999)
  {
    assert AllDigits("1234") && DigitsValue("1234") == 1234 by {
      assert "1234"[..3] == "123" && "123"[..2] == "12" && "12"[..1] == "1" && "1"[..0] == "";
    }
    assert AllDigits("99999") && DigitsValue("99999") == 99999 by {
      assert "99999"[..4] == "9999" && "9999"[..3] == "999" && "999"[..2] == "99";
      assert "99"[..1] == "9" && "9"[..0] == "";
    }
  }

  /** The ids the schema's own cases refuse: "999", "100000", "abc" and "12a34". */
  lemma GameIdRefused()
    ensures GameIdSchema("999").Failure? && GameIdSchema("100000").Failure?
    ensures GameIdSchema("abc").Failure? && GameIdSchema("12a34").Failure?
  {
    assert AllDigits("999") && DigitsValue("999") == 999 by {
      assert "999"[..2] == "99" && "99"[..1] == "9" && "9"[..0] == "";
    }
    assert AllDigits("100000") && DigitsValue("100000") == 100000 by {
      assert "100000"[..5] == "10000" && "10000"[..4] == "1000" && "1000"[..3] == "100";
      assert "100"[..2] == "10" && "10"[..1] == "1" && "1"[..0] == "";
    }
    assert !IsDigit("abc"[0]) && !IsDigit("12a34"[2]);
  }

  /** What `numberOfOptionsSchema` is given: nothing, a string, or a number. */
  datatype OptionsInput = Absent | Text(text: string) | Num(value: int)

  /** `numberOfOptionsSchema`: `undefined` is the default 3; anything else is coerced with
      `Number(...)` and must be a whole number from 2 to 6. */
  function NumberOfOptionsSchema(input: OptionsInput): (r: Result<int>)
    ensures r.Success? ==> MinNumberOfOptions <= r.value <= MaxNumberOfOptions
    ensures input.Absent? ==> r == Success(DefaultNumberOfOptions)
    ensures input.Num? ==>
      (r.Success? <==> MinNumberOfOptions <= input.value <= MaxNumberOfOptions) &&
      (r.Success? ==> r.value == input.value)
    ensures input.Text? ==>
      var x := StringToNumber(input.text);
      (r.Success? <==> IsInteger(x) && MinNumberOfOptions <= x.num / x.den <= MaxNumberOfOptions) &&
      (r.Success? ==> r.value == x.num / x.den)
  {
    match input
    case Absent => Success(DefaultNumberOfOptions)
    case Num(n) =>
      IntegerBetween(Finite(n, 1), MinNumberOfOptions, MaxNumberOfOptions, "Must be at least 2", "Must be at most 6")
    case Text(s) =>
      IntegerBetween(StringToNumber(s), MinNumberOfOptions, MaxNumberOfOptions, "Must be at least 2", "Must be at most 6")
  }

  /** Coercion agrees with the number: the decimal text of `n` is accepted exactly when `n`
      is, with the same value. */
  lemma NumberOfOptionsText(n: int)
    ensures NumberOfOptionsSchema(Text(IntToString(n))) == NumberOfOptionsSchema(Num(n))
  {
    IntToNumber(n);
  }

  /** The schema's own numeric cases: 2, 6 and 4 pass, 1 and 7 do not, `undefined` is 3. */
  lemma NumberOfOptionsNumbers()
    ensures NumberOfOptionsSchema(Num(2)) == Success(2) && NumberOfOptionsSchema(Num(6)) == Success(6)
    ensures NumberOfOptionsSchema(Num(4)) == Success(4)
    ensures NumberOfOptionsSchema(Num(1)).Failure? && NumberOfOptionsSchema(Num(7)).Failure?
    ensures NumberOfOptionsSchema(Absent) == Success(3)
  {
  }

  /** The schema's own text cases: "3" and "5" are coerced, "abc" is refused. */
  lemma NumberOfOptionsTexts()
    ensures NumberOfOptionsSchema(Text("3")) == Success(3) && NumberOfOptionsSchema(Text("5")) == Success(5)
    ensures NumberOfOptionsSchema(Text("abc")).Failure?
  {
    assert IntToString(3) == "3" && IntToString(5) == "5";
    NumberOfOptionsText(3);
    NumberOfOptionsText(5);
    assert IsTrimmed("abc");
    NotANumber("abc");
  }

  /** Each string read as a `ThaiAlphabetType`, or `None` when one is not a member. */
  function ParseLetterTypes(xs: seq<string>): (r: Option<seq<LetterType>>)
    ensures r.Some? <==> forall k | 0 <= k < |xs| :: ParseLetterType(xs[k]).Some?
    ensures r.Some? ==> |r.value| == |xs| && forall k | 0 <= k < |xs| :: LetterTypeName(r.value[k]) == xs[k]
  {
    if xs == [] then Some([])
    else
      match (ParseLetterType(xs[0]), ParseLetterTypes(xs[1..]))
      case (Some(t), Some(ts)) => Some([t] + ts)
      case (_, rest) =>
        assert rest.None? ==> exists k | 1 <= k < |xs| :: ParseLetterType(xs[k]).None? by {
          if rest.None? {
            var k :| 0 <= k < |xs[1..]| && ParseLetterType(xs[1..][k]).None?;
            assert xs[k + 1] == xs[1..][k];
          }
        }
        None
  }

  /** The names of some types. */
  function LetterTypeNames(ts: seq<LetterType>): (r: seq<string>)
    ensures |r| == |ts| && forall k | 0 <= k < |ts| :: r[k] == LetterTypeName(ts[k])
  {
    seq(|ts|, k requires 0 <= k < |ts| => LetterTypeName(ts[k]))
  }

  /** Reading back the names of some types gives those types. */
  lemma ParseLetterTypeNames(ts: seq<LetterType>)
    ensures ParseLetterTypes(LetterTypeNames(ts)) == Some(ts)
  {
    var names := LetterTypeNames(ts);
    forall k | 0 <= k < |names| ensures ParseLetterType(names[k]).Some? {
      LetterTypeNameRoundTrip(ts[k]);
    }
    var r := ParseLetterTypes(names).value;
    forall k | 0 <= k < |ts| ensures r[k] == ts[k] {
      LetterTypeNameRoundTrip(ts[k]);
      LetterTypeNameRoundTrip(r[k]);
    }
    assert r == ts;
  }

  /** `thaiAlphabetTypesSchema`: `undefined` is [Consonant, Vowel]; an array must hold at
      least one value and only `ThaiAlphabetType` values. */
  function ThaiAlphabetTypesSchema(input: Option<seq<string>>): (r: Result<seq<LetterType>>)
    ensures input.None? ==> r == Success([Consonant, Vowel])
    ensures input.Some? ==>
      (r.Success? <==> |input.value| >= MinAlphabetTypesSelected && ParseLetterTypes(input.value).Some?)
    ensures r.Success? ==> |r.value| >= MinAlphabetTypesSelected
    ensures input.Some? && r.Success? ==>
      |r.value| == |input.value| && forall k | 0 <= k < |r.value| :: LetterTypeName(r.value[k]) == input.value[k]
  {
    if input.None? then Success([Consonant, Vowel])
    else if |input.value| < MinAlphabetTypesSelected then Failure(NoAlphabetTypesSelected)
    else
      match ParseLetterTypes(input.value)
      case None => Failure(InvalidEnumValue)
      case Some(ts) => Success(ts)
  }

  /** The schema accepts the names of any non-empty list of types and gives that list back. */
  lemma ThaiAlphabetTypesRoundTrip(ts: seq<LetterType>)
    requires ts != []
    ensures ThaiAlphabetTypesSchema(Some(LetterTypeNames(ts))) == Success(ts)
  {
    ParseLetterTypeNames(ts);
  }

  /** The schema's own cases: [] and ["invalid"] are refused. */
  lemma ThaiAlphabetTypesExamples()
    ensures ThaiAlphabetTypesSchema(Some([])).Failure?
    ensures ThaiAlphabetTypesSchema(Some(["invalid"])).Failure?
  {
    assert ParseLetterType(["invalid"][0]).None?;
  }

  /** `z.nativeEnum(E)`: the member of `members` whose string value is `s`. */
  function ParseEnum<T>(s: string, members: seq<T>, name: T -> string): (r: Option<T>)
    ensures r.Some? ==> r.value in members && name(r.value) == s
    ensures r.None? ==> forall t | t in members :: name(t) != s
  {
    if members == [] then None
    else if name(members[0]) == s then Some(members[0])
    else ParseEnum(s, members[1..], name)
  }

  /** Members with distinct names are read back from their names. */
  lemma ParseEnumName<T>(members: seq<T>, name: T -> string, t: T)
    requires t in members
    requires forall a, b :: name(a) == name(b) ==> a == b
    ensures ParseEnum(name(t), members, name) == Some(t)
  {
  }

  /** The settings object a schema is given, with the enum fields as the strings they hold. */
  datatype RawSettings = RawSettings(
    gameType: string,
    gameMode: string,
    gameLevel: string,
    languageMode: string,
    inputMode: string,
    numberOfOptions: OptionsInput,
    thaiAlphabetTypes: Option<seq<string>>)

  /** Settings as the plain object that holds them. */
  function ToRaw(s: GameSettings): (r: RawSettings)
    ensures r.gameType == GameTypeName(s.gameType) && r.gameMode == GameModeName(s.gameMode)
    ensures r.gameLevel == GameLevelName(s.gameLevel) && r.languageMode == LanguageModeName(s.languageMode)
    ensures r.inputMode == InputModeName(s.inputMode)
    ensures r.numberOfOptions == if s.numberOfOptions.Some? then Num(s.numberOfOptions.value) else Absent
  {
    RawSettings(
      GameTypeName(s.gameType), GameModeName(s.gameMode), GameLevelName(s.gameLevel),
      LanguageModeName(s.languageMode), InputModeName(s.inputMode),
      if s.numberOfOptions.Some? then Num(s.numberOfOptions.value) else Absent,
      if s.thaiAlphabetTypes.Some? then Some(LetterTypeNames(s.thaiAlphabetTypes.value)) else None)
  }

  function Require<T>(o: Option<T>, message: string): (r: Result<T>)
    ensures r.Success? <==> o.Some?
    ensures r.Success? ==> r.value == o.value
  {
    if o.Some? then Success(o.value) else Failure(message)
  }

  /** Settings the schema lets through: at most 2 to 6 options, and some alphabet types. */
  predicate ValidSettings(s: GameSettings) {
    && (s.numberOfOptions.Some? ==> MinNumberOfOptions <= s.numberOfOptions.value <= MaxNumberOfOptions)
    && s.thaiAlphabetTypes.Some? && |s.thaiAlphabetTypes.value| >= MinAlphabetTypesSelected
  }

  /** `numberOfOptionsSchema.optional()`: `undefined` stays undefined. */
  function OptionalNumberOfOptions(input: OptionsInput): (r: Result<Option<int>>)
    ensures input.Absent? ==> r == Success(None)
    ensures !input.Absent? ==>
      (r.Success? <==> NumberOfOptionsSchema(input).Success?) &&
      (r.Success? ==> r.value == Some(NumberOfOptionsSchema(input).value))
  {
    if input.Absent? then Success(None)
    else
      var n :- NumberOfOptionsSchema(input);
      Success(Some(n))
  }

  /** `gameSettingsSchema`: each enum field must hold one of its enum's values, the option
      count is optional, and the alphabet types default to [Consonant, Vowel]. */
  function GameSettingsSchema(raw: RawSettings): (r: Result<GameSettings>)
    ensures r.Success? ==> ValidSettings(r.value)
    ensures r.Success? ==>
      && GameTypeName(r.value.gameType) == raw.gameType
      && GameModeName(r.value.gameMode) == raw.gameMode
      && GameLevelName(r.value.gameLevel) == raw.gameLevel
      && LanguageModeName(r.value.languageMode) == raw.languageMode
      && InputModeName(r.value.inputMode) == raw.inputMode
    ensures ParseEnum(raw.gameType, AllGameTypes, GameTypeName).None? ==> r == Failure("Invalid game type")
    ensures r.Success? ==> OptionalNumberOfOptions(raw.numberOfOptions) == Success(r.value.numberOfOptions)
    ensures r.Success? ==> ThaiAlphabetTypesSchema(raw.thaiAlphabetTypes) == Success(r.value.thaiAlphabetTypes.value)
  {
    var gameType :- Require(ParseEnum(raw.gameType, AllGameTypes, GameTypeName), "Invalid game type");
    var gameMode :- Require(ParseEnum(raw.gameMode, AllGameModes, GameModeName), "Invalid game mode");
    var gameLevel :- Require(ParseEnum(raw.gameLevel, AllGameLevels, GameLevelName), "Invalid game level");
    var languageMode :- Require(ParseEnum(raw.languageMode, AllLanguageModes, LanguageModeName), "Invalid language mode");
    var inputMode :- Require(ParseEnum(raw.inputMode, AllInputModes, InputModeName), "Invalid input mode");
    var numberOfOptions :- OptionalNumberOfOptions(raw.numberOfOptions);
    var types :- ThaiAlphabetTypesSchema(raw.thaiAlphabetTypes);
    Success(GameSettings(gameType, gameMode, gameLevel, languageMode, numberOfOptions, inputMode, Some(types)))
  }

  /** Every enum value is read back from its name. */
  lemma EnumNames(s: GameSettings)
    ensures ParseEnum(GameTypeName(s.gameType), AllGameTypes, GameTypeName) == Some(s.gameType)
    ensures ParseEnum(GameModeName(s.gameMode), AllGameModes, GameModeName) == Some(s.gameMode)
    ensures ParseEnum(GameLevelName(s.gameLevel), AllGameLevels, GameLevelName) == Some(s.gameLevel)
    ensures ParseEnum(LanguageModeName(s.languageMode), AllLanguageModes, LanguageModeName) == Some(s.languageMode)
    ensures ParseEnum(InputModeName(s.inputMode), AllInputModes, InputModeName) == Some(s.inputMode)
  {
    assert forall a, b :: GameTypeName(a) == GameTypeName(b) ==> a == b;
    assert forall a, b :: GameModeName(a) == GameModeName(b) ==> a == b;
    assert forall a, b :: GameLevelName(a) == GameLevelName(b) ==> a == b;
    assert forall a, b :: LanguageModeName(a) == LanguageModeName(b) ==> a == b;
    assert forall a, b :: InputModeName(a) == InputModeName(b) ==> a == b;
    assert s.gameType in AllGameTypes by { if s.gameType.Alphabet? {} }
    assert s.gameMode in AllGameModes by { if s.gameMode.Sequence? {} }
    assert s.gameLevel in AllGameLevels by { if s.gameLevel.Easy? {} else if s.gameLevel.Medium? {} }
    assert s.languageMode in AllLanguageModes by { if s.languageMode.Thai? {} }
    assert s.inputMode in AllInputModes by { if s.inputMode.Options? {} }
    ParseEnumName(AllGameTypes, GameTypeName, s.gameType);
    ParseEnumName(AllGameModes, GameModeName, s.gameMode);
    ParseEnumName(AllGameLevels, GameLevelName, s.gameLevel);
    ParseEnumName(AllLanguageModes, LanguageModeName, s.languageMode);
    ParseEnumName(AllInputModes, InputModeName, s.inputMode);
  }

  /** Valid settings pass the schema unchanged. */
  lemma SettingsSchemaKeepsValid(s: GameSettings)
    requires ValidSettings(s)
    ensures GameSettingsSchema(ToRaw(s)) == Success(s)
  {
    EnumNames(s);
    ThaiAlphabetTypesRoundTrip(s.thaiAlphabetTypes.value);
  }

  /** `userTextInputSchema`: the trimmed text, refused when it is empty, longer than 100
      UTF-16 code units, or holds a `<...>` tag. */
  function UserTextInputSchema(s: string): (r: Result<string>)
    ensures r.Success? <==>
      MinTextInputLength <= Utf16Length(Trim(s)) <= MaxTextInputLength && !HasTag(Trim(s))
    ensures r.Success? ==> r.value == Trim(s)
  {
    var t := Trim(s);
    if Utf16Length(t) < MinTextInputLength then Failure(TextTooShort)
    else if Utf16Length(t) > MaxTextInputLength then Failure(TextTooLong)
    else if HasTag(t) then Failure(HtmlNotAllowed)
    else Success(t)
  }

  /** Empty and whitespace-only text is refused, and accepted text is accepted again
      unchanged. */
  lemma UserTextInputFacts(s: string)
    ensures AllWhitespace(s) ==> UserTextInputSchema(s).Failure?
    ensures UserTextInputSchema(s).Success? ==>
      UserTextInputSchema(UserTextInputSchema(s).value) == UserTextInputSchema(s)
  {
    TrimEmpty(s);
    TrimIdempotent(s);
  }

  /** `gameFormSchema`: the settings schema, then in sequence mode the option count is
      dropped. */
  function GameFormSchema(raw: RawSettings): (r: Result<GameSettings>)
    ensures r.Success? <==> GameSettingsSchema(raw).Success?
    ensures r.Success? && r.value.gameMode == Sequence ==>
      r.value == GameSettingsSchema(raw).value.(numberOfOptions := None)
    ensures r.Success? && r.value.gameMode != Sequence ==> r.value == GameSettingsSchema(raw).value
  {
    var data :- GameSettingsSchema(raw);
    if data.gameMode == Sequence then Success(data.(numberOfOptions := None)) else Success(data)
  }

  /** Feeding the form schema its own output changes nothing. */
  lemma GameFormIdempotent(raw: RawSettings)
    requires GameFormSchema(raw).Success?
    ensures GameFormSchema(ToRaw(GameFormSchema(raw).value)) == GameFormSchema(raw)
  {
    var s := GameFormSchema(raw).value;
    SettingsSchemaKeepsValid(s);
  }
}
