/** src/app/utils/validation.utils.ts: reading game settings from URL search parameters
    with a fallback to the default for every field that is missing or invalid, escaping
    user text, and choosing the message to show for a thrown error. */
module Validation {
  import opened Wrappers
  import opened Letters
  import opened GameTypes
  import opened JsText
  import opened JsNumber
  import opened GameSchemas
  import opened UrlSearchParams
  import MemoryGame

  const AlphabetTypeKey := "alphabet-type"

  /** `parseEnumValue(value, E, default)`: the member of `E` whose string value is `value`,
      or `default` when `value` is absent, empty or not such a value. */
  function ParseEnumValue<T>(value: Option<string>, members: seq<T>, name: T -> string, default: T): (r: T)
    ensures r == default || (value.Some? && r in members && name(r) == value.value)
    ensures value.Some? && value.value != "" && (exists t | t in members :: name(t) == value.value) ==>
      r in members && name(r) == value.value
    ensures value.None? || (forall t | t in members :: name(t) != value.value) ==> r == default
  {
    if value.None? || value.value == "" then default
    else
      match ParseEnum(value.value, members, name)
      case Some(t) => t
      case None => default
  }

  /** `parseNumberOfOptions(value)`: the coerced whole number when the schema accepts it,
      the default 3 when the value is absent, empty or refused. */
  function ParseNumberOfOptions(value: Option<string>): (r: int)
    ensures MinNumberOfOptions <= r <= MaxNumberOfOptions
    ensures value.None? || value.value == "" ==> r == DefaultNumberOfOptions
    ensures value.Some? && StringToNumber(value.value).NaN? ==> r == DefaultNumberOfOptions
    ensures r == DefaultNumberOfOptions ||
      (value.Some? && IsInteger(StringToNumber(value.value)) &&
       r == StringToNumber(value.value).num / StringToNumber(value.value).den)
    ensures value.Some? ==>
      var x := StringToNumber(value.value);
      r == if IsInteger(x) && MinNumberOfOptions <= x.num / x.den <= MaxNumberOfOptions
           then x.num / x.den else DefaultNumberOfOptions
  {
    if value.None? || value.value == "" then DefaultNumberOfOptions
    else
      match NumberOfOptionsSchema(Text(value.value))
      case Success(n) => n
      case Failure(_) => DefaultNumberOfOptions
  }

  /** The decimal text of a whole number gives that number when it is from 2 to 6, and the
      default 3 otherwise. */
  lemma ParseNumberOfOptionsText(n: int)
    ensures ParseNumberOfOptions(Some(Decimal.IntToString(n))) ==
      if MinNumberOfOptions <= n <= MaxNumberOfOptions then n else DefaultNumberOfOptions
  {
    NumberOfOptionsText(n);
  }

  /** Coercion is not limited to canonical text: "04" gives 4, not the default. */
  lemma ParseNumberOfOptionsLeadingZero()
    ensures ParseNumberOfOptions(Some("04")) == 4
  {
    DigitsToNumber("04");
  }

  /** What a key of the parameters object holds: one string, or every value of the key. */
  datatype ParamValue = Single(value: string) | Many(values: seq<string>)

  /** The types named among `xs`, in order, unknown names dropped. */
  function RecognisedTypes(xs: seq<string>): (r: seq<LetterType>)
    ensures |r| <= |xs|
    ensures forall t | t in r :: LetterTypeName(t) in xs
    ensures forall x | x in xs && ParseLetterType(x).Some? :: ParseLetterType(x).value in r
  {
    if xs == [] then []
    else
      var rest := RecognisedTypes(xs[1..]);
      assert forall x | x in xs :: x == xs[0] || x in xs[1..];
      match ParseLetterType(xs[0])
      case Some(t) => [t] + rest
      case None => rest
  }

  /** Recognising works value by value: the types named in a concatenation are those of
      each part, so recognised values keep their input order and multiplicity. */
  lemma {:induction false} RecognisedTypesAppend(a: seq<string>, b: seq<string>)
    ensures RecognisedTypes(a + b) == RecognisedTypes(a) + RecognisedTypes(b)
    decreases |a|
  {
    if a == [] {
      assert a + b == b;
    } else {
      assert (a + b)[0] == a[0];
      assert (a + b)[1..] == a[1..] + b;
      RecognisedTypesAppend(a[1..], b);
    }
  }

  /** The strings a parameter value holds. */
  function Values(v: ParamValue): (r: seq<string>)
    ensures v.Single? ==> r == [v.value]
    ensures v.Many? ==> r == v.values
  {
    if v.Single? then [v.value] else v.values
  }

  /** `parseThaiAlphabetTypes(value)`: the recognised types in order, or all four types
      when the value is absent, empty or names no type. */
  function ParseThaiAlphabetTypes(value: Option<ParamValue>): (r: seq<LetterType>)
    ensures r != []
    ensures value.None? ==> r == AllLetterTypes
    ensures value.Some? ==>
      r == if RecognisedTypes(Values(value.value)) == [] then AllLetterTypes else RecognisedTypes(Values(value.value))
  {
    if value.None? || value == Some(Single("")) then AllLetterTypes
    else
      var valid := RecognisedTypes(Values(value.value));
      ThaiAlphabetTypesRoundTripOrEmpty(valid);
      match ThaiAlphabetTypesSchema(Some(LetterTypeNames(valid)))
      case Success(types) => types
      case Failure(_) => AllLetterTypes
  }

  /** The schema gives back a non-empty list of types and refuses the empty one. */
  lemma ThaiAlphabetTypesRoundTripOrEmpty(ts: seq<LetterType>)
    ensures ThaiAlphabetTypesSchema(Some(LetterTypeNames(ts))) == if ts == [] then Failure(NoAlphabetTypesSelected) else Success(ts)
  {
    if ts != [] {
      ThaiAlphabetTypesRoundTrip(ts);
    }
  }

  /** The parameter keys `gameSearchParamsSchema` reads, after validation. */
  datatype SearchParams = SearchParams(
    level: Option<string>,
    mode: Option<string>,
    gameType: Option<string>,
    languageMode: Option<string>,
    numberOptions: Option<string>,
    inputMode: Option<string>,
    alphabetType: Option<ParamValue>)

  /** The object `forEach` builds from the first `n` pairs: each key holds its last value,
      except 'alphabet-type', which holds every value it has among all the pairs. */
  function ParamsObject(params: Params, n: nat): (r: map<string, ParamValue>)
    requires n <= |params|
    ensures forall key | key in r :: key != AlphabetTypeKey ==> r[key].Single?
    ensures AlphabetTypeKey in r ==> r[AlphabetTypeKey] == Many(GetAll(params, AlphabetTypeKey))
  {
    if n == 0 then map[]
    else
      var (key, value) := params[n - 1];
      ParamsObject(params, n - 1)[key := if key == AlphabetTypeKey then Many(GetAll(params, key)) else Single(value)]
  }

  /** A key of the object holds the last value given to it. */
  lemma {:induction false} ParamsObjectLookup(params: Params, n: nat, key: string)
    requires n <= |params|
    ensures key in ParamsObject(params, n) <==> LastValue(params[..n], key).Some?
    ensures key in ParamsObject(params, n) && key != AlphabetTypeKey ==>
      ParamsObject(params, n)[key] == Single(LastValue(params[..n], key).value)
  {
    if n > 0 {
      ParamsObjectLookup(params, n - 1, key);
      assert params[..n][..n - 1] == params[..n - 1];
    }
  }

  /** A key that is not an 'alphabet-type' must hold one string. */
  function OptionalString(obj: map<string, ParamValue>, key: string): (r: Result<Option<string>>)
    ensures key !in obj ==> r == Success(None)
    ensures key in obj ==> (r.Success? <==> obj[key].Single?) && (r.Success? ==> r.value == Some(obj[key].value))
  {
    if key !in obj then Success(None)
    else
      match obj[key]
      case Single(s) => Success(Some(s))
      case Many(_) => Failure("Expected string, received array")
  }

  /** `gameSearchParamsSchema`: the optional string keys, and 'alphabet-type' as a string or
      an array; other keys are dropped. */
  function SearchParamsSchema(obj: map<string, ParamValue>): (r: Result<SearchParams>)
    ensures (forall key | key in obj :: key != AlphabetTypeKey ==> obj[key].Single?) ==> r.Success?
  {
    var level :- OptionalString(obj, "level");
    var mode :- OptionalString(obj, "mode");
    var gameType :- OptionalString(obj, "type");
    var languageMode :- OptionalString(obj, "language-mode");
    var numberOptions :- OptionalString(obj, "number-options");
    var inputMode :- OptionalString(obj, "input-mode");
    var alphabetType := if AlphabetTypeKey in obj then Some(obj[AlphabetTypeKey]) else None;
    Success(SearchParams(level, mode, gameType, languageMode, numberOptions, inputMode, alphabetType))
  }

  /** The settings object built from the validated parameters, each field falling back to
      the store's default. */
  function SettingsFrom(p: SearchParams): (r: GameSettings)
    ensures r.numberOfOptions.Some? && r.thaiAlphabetTypes.Some?
    ensures ValidSettings(r)
  {
    var defaults := MemoryGame.DefaultSettings;
    GameSettings(
      ParseEnumValue(p.gameType, AllGameTypes, GameTypeName, defaults.gameType),
      ParseEnumValue(p.mode, AllGameModes, GameModeName, defaults.gameMode),
      ParseEnumValue(p.level, AllGameLevels, GameLevelName, defaults.gameLevel),
      ParseEnumValue(p.languageMode, AllLanguageModes, LanguageModeName, defaults.languageMode),
      Some(ParseNumberOfOptions(p.numberOptions)),
      ParseEnumValue(p.inputMode, AllInputModes, InputModeName, defaults.inputMode),
      Some(ParseThaiAlphabetTypes(p.alphabetType)))
  }

  /** The name of every enum value reads back as that value, whatever the default. */
  lemma EnumValuesRoundTrip(s: GameSettings)
    ensures ParseEnumValue(Some(GameTypeName(s.gameType)), AllGameTypes, GameTypeName, MemoryGame.DefaultSettings.gameType) == s.gameType
    ensures ParseEnumValue(Some(GameModeName(s.gameMode)), AllGameModes, GameModeName, MemoryGame.DefaultSettings.gameMode) == s.gameMode
    ensures ParseEnumValue(Some(GameLevelName(s.gameLevel)), AllGameLevels, GameLevelName, MemoryGame.DefaultSettings.gameLevel) == s.gameLevel
    ensures ParseEnumValue(Some(LanguageModeName(s.languageMode)), AllLanguageModes, LanguageModeName, MemoryGame.DefaultSettings.languageMode) == s.languageMode
    ensures ParseEnumValue(Some(InputModeName(s.inputMode)), AllInputModes, InputModeName, MemoryGame.DefaultSettings.inputMode) == s.inputMode
  {
    EnumNames(s);
  }

  /** What `parseGameSettingsFromSearchParams` returns for the pairs `params`: the settings
      read from them, passed through `gameSettingsSchema`, or the default settings when
      either schema throws. */
  function SettingsFromParams(params: Params): GameSettings {
    match SearchParamsSchema(ParamsObject(params, |params|))
    case Failure(_) => MemoryGame.DefaultSettings
    case Success(p) =>
      match GameSettingsSchema(ToRaw(SettingsFrom(p)))
      case Failure(_) => MemoryGame.DefaultSettings
      case Success(settings) => settings
  }

  /** `parseGameSettingsFromSearchParams(searchParams)`. */
  method ParseGameSettingsFromSearchParams(params: Params) returns (settings: GameSettings)
    ensures settings == SettingsFromParams(params)
  {
    var paramsObject: map<string, ParamValue> := map[];
    for i := 0 to |params|
      invariant paramsObject == ParamsObject(params, i)
    {
      var (key, value) := params[i];
      if key == AlphabetTypeKey {
        paramsObject := paramsObject[key := Many(GetAll(params, key))];
      } else {
        paramsObject := paramsObject[key := Single(value)];
      }
    }
    var validated := SearchParamsSchema(paramsObject);
    if validated.Failure? {
      return MemoryGame.DefaultSettings;
    }
    var parsed := GameSettingsSchema(ToRaw(SettingsFrom(validated.value)));
    if parsed.Failure? {
      return MemoryGame.DefaultSettings;
    }
    return parsed.value;
  }

  /** The parameters as the search schema sees them: the last value of each key, and every
      value of 'alphabet-type'. */
  function ReadParams(params: Params): (r: SearchParams)
    ensures r.level == LastValue(params, "level") && r.mode == LastValue(params, "mode")
    ensures r.gameType == LastValue(params, "type") && r.languageMode == LastValue(params, "language-mode")
    ensures r.numberOptions == LastValue(params, "number-options") && r.inputMode == LastValue(params, "input-mode")
    ensures r.alphabetType == if GetAll(params, AlphabetTypeKey) == [] then None else Some(Many(GetAll(params, AlphabetTypeKey)))
  {
    SearchParams(
      LastValue(params, "level"), LastValue(params, "mode"), LastValue(params, "type"),
      LastValue(params, "language-mode"), LastValue(params, "number-options"), LastValue(params, "input-mode"),
      if GetAll(params, AlphabetTypeKey) == [] then None else Some(Many(GetAll(params, AlphabetTypeKey))))
  }

  /** The search schema never throws on the object `forEach` builds, and it reads the last
      value of each key. */
  lemma SearchParamsOfObject(params: Params)
    ensures SearchParamsSchema(ParamsObject(params, |params|)) == Success(ReadParams(params))
  {
    var n := |params|;
    assert params[..n] == params;
    ParamsObjectLookup(params, n, "level");
    ParamsObjectLookup(params, n, "mode");
    ParamsObjectLookup(params, n, "type");
    ParamsObjectLookup(params, n, "language-mode");
    ParamsObjectLookup(params, n, "number-options");
    ParamsObjectLookup(params, n, "input-mode");
    ParamsObjectLookup(params, n, AlphabetTypeKey);
  }

  /** Parsing never falls back as a whole: every field comes from its own key, or from its
      default when the key is missing or invalid, and the types from every
      'alphabet-type'. */
  lemma ParseReadsEachKey(params: Params)
    ensures SettingsFromParams(params) == SettingsFrom(ReadParams(params))
  {
    SearchParamsOfObject(params);
    SettingsSchemaKeepsValid(SettingsFrom(ReadParams(params)));
  }

  /** Without parameters, the settings are the store's defaults with all four types. */
  lemma EmptyParamsGiveDefaults()
    ensures SettingsFromParams([]) ==
      MemoryGame.DefaultSettings.(numberOfOptions := Some(DefaultNumberOfOptions), thaiAlphabetTypes := Some(AllLetterTypes))
  {
    ParseReadsEachKey([]);
  }

  /** `sanitizeUserInput(input)`: tags removed, the HTML-special characters escaped, then
      trimmed. */
  function SanitizeUserInput(input: string): string {
    var withoutHtml := StripTags(input);
    var escaped := Escape(withoutHtml);
    Trim(escaped)
  }

  /** None of the characters the escapes remove. */
  predicate NoSpecial(s: string) {
    '<' !in s && '>' !in s && '"' !in s && '\'' !in s && '/' !in s
  }

  /** The escapes, in the order they are applied: '&' first, so the ampersands the later
      ones write are left alone. */
  function Escape(s: string): (r: string)
    ensures NoSpecial(r)
  {
    EscapeQuotesKeepsMarkup(EscapeMarkup(s), '<');
    EscapeQuotesKeepsMarkup(EscapeMarkup(s), '>');
    EscapeQuotes(EscapeMarkup(s))
  }

  /** The first three escapes: '&', '<' and '>'. */
  function EscapeMarkup(s: string): (r: string)
    ensures '<' !in r && '>' !in r
  {
    var a := ReplaceAll(s, '&', "&amp;");
    var b := ReplaceAll(a, '<', "&lt;");
    ReplaceAllChars(b, '>', "&gt;", '<');
    ReplaceAll(b, '>', "&gt;")
  }

  /** The last three escapes: '"', '\'' and '/'. */
  function EscapeQuotes(s: string): (r: string)
    ensures '"' !in r && '\'' !in r && '/' !in r
  {
    var d := ReplaceAll(s, '"', "&quot;");
    var e := ReplaceAll(d, '\'', "&#x27;");
    ReplaceAllChars(d, '\'', "&#x27;", '"');
    ReplaceAllChars(e, '/', "&#x2F;", '"');
    ReplaceAllChars(e, '/', "&#x2F;", '\'');
    ReplaceAll(e, '/', "&#x2F;")
  }

  /** The quote escapes write no '<' or '>'. */
  lemma EscapeQuotesKeepsMarkup(s: string, x: char)
    requires x == '<' || x == '>'
    requires x !in s
    ensures x !in EscapeQuotes(s)
  {
    var d := ReplaceAll(s, '"', "&quot;");
    var e := ReplaceAll(d, '\'', "&#x27;");
    ReplaceAllChars(s, '"', "&quot;", x);
    ReplaceAllChars(d, '\'', "&#x27;", x);
    ReplaceAllChars(e, '/', "&#x2F;", x);
  }

  /** Text without the characters the escapes replace is left as it is. */
  lemma EscapePlain(s: string)
    requires NoSpecial(s) && '&' !in s
    ensures Escape(s) == s
  {
    ReplaceAllAbsent(s, '&', "&amp;");
    ReplaceAllAbsent(s, '<', "&lt;");
    ReplaceAllAbsent(s, '>', "&gt;");
    ReplaceAllAbsent(s, '"', "&quot;");
    ReplaceAllAbsent(s, '\'', "&#x27;");
    ReplaceAllAbsent(s, '/', "&#x2F;");
  }

  /** Sanitised text holds none of `< > " ' /` and has no whitespace at either end. */
  lemma SanitizedIsSafe(input: string)
    ensures IsTrimmed(SanitizeUserInput(input))
    ensures NoSpecial(SanitizeUserInput(input))
  {
    var escaped := Escape(StripTags(input));
    TrimChars(escaped, '<');
    TrimChars(escaped, '>');
    TrimChars(escaped, '"');
    TrimChars(escaped, '\'');
    TrimChars(escaped, '/');
  }

  /** Trimmed text without `< > & " ' /`, Thai text for one, is left as it is; the empty
      string stays empty. */
  lemma SanitizeKeepsPlainText(input: string)
    requires IsTrimmed(input)
    requires NoSpecial(input) && '&' !in input
    ensures SanitizeUserInput(input) == input
  {
    EscapePlain(StripTags(input));
    TrimTrimmed(input);
  }

  /** What was thrown: a `ZodError` with its issues' messages, another `Error`, or any
      other value. */
  datatype Thrown = ZodError(messages: seq<string>) | Error(message: string) | NotAnError

  /** `getValidationErrorMessage(error)`. */
  function GetValidationErrorMessage(error: Thrown): (r: string)
    ensures error.ZodError? && error.messages != [] && error.messages[0] != "" ==> r == error.messages[0]
    ensures error.ZodError? && (error.messages == [] || error.messages[0] == "") ==> r == "Validation error"
    ensures error.Error? ==> r == error.message
    ensures error.NotAnError? ==> r == "An unexpected error occurred"
  {
    match error
    case ZodError(messages) => if messages != [] && messages[0] != "" then messages[0] else "Validation error"
    case Error(message) => message
    case NotAnError => "An unexpected error occurred"
  }
}
