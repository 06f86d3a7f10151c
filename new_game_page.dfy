/** src/app/games/new/page.tsx: `startGame` writes the chosen settings into URL search
    parameters and navigates to a game page with a random id. The navigation itself is
    left out; the target URL is computed. */
module NewGamePage {
  import opened Wrappers
  import opened Decimal
  import opened Letters
  import opened GameTypes
  import opened GameSchemas
  import opened UrlSearchParams
  import opened Validation
  import opened JsText

  /** The 'number-options' pair, present when the number is truthy (set and not 0). */
  function NumberOptionsParam(n: Option<int>): (r: Params)
    ensures r == [] <==> n.None? || n.value == 0
    ensures r != [] ==> r == [("number-options", IntToString(n.value))]
  {
    if n.Some? && n.value != 0 then [("number-options", IntToString(n.value))] else []
  }

  /** One 'alphabet-type' pair per type, in order. */
  function AlphabetTypeParams(ts: seq<LetterType>): (r: Params)
    ensures |r| == |ts|
    ensures forall k | 0 <= k < |r| :: r[k] == (AlphabetTypeKey, LetterTypeName(ts[k]))
  {
    if ts == [] then []
    else AlphabetTypeParams(ts[..|ts| - 1]) + [(AlphabetTypeKey, LetterTypeName(ts[|ts| - 1]))]
  }

  /** The four pairs every game URL starts with. */
  function FixedParams(s: GameSettings): Params {
    [("level", GameLevelName(s.gameLevel)), ("mode", GameModeName(s.gameMode)),
     ("type", GameTypeName(s.gameType)), ("language-mode", LanguageModeName(s.languageMode))]
  }

  /** The parameters `startGame` builds for `s`. */
  function SettingsParams(s: GameSettings): Params {
    FixedParams(s) + NumberOptionsParam(s.numberOfOptions) + [("input-mode", InputModeName(s.inputMode))]
    + (if s.thaiAlphabetTypes.Some? then AlphabetTypeParams(s.thaiAlphabetTypes.value) else [])
  }

  /** The successive `append` calls of `startGame`, then the `forEach` over the types. An
      input mode is always a non-empty string, so its pair is always appended. */
  method BuildParams(settings: GameSettings) returns (params: Params)
    ensures params == SettingsParams(settings)
  {
    params := [];
    params := params + [("level", GameLevelName(settings.gameLevel))];
    params := params + [("mode", GameModeName(settings.gameMode))];
    params := params + [("type", GameTypeName(settings.gameType))];
    params := params + [("language-mode", LanguageModeName(settings.languageMode))];
    assert params == FixedParams(settings);
    if settings.numberOfOptions.Some? && settings.numberOfOptions.value != 0 {
      params := params + [("number-options", IntToString(settings.numberOfOptions.value))];
    }
    params := params + [("input-mode", InputModeName(settings.inputMode))];
    assert params == HeadParams(settings);
    var before := params;
    if settings.thaiAlphabetTypes.Some? {
      var types := settings.thaiAlphabetTypes.value;
      for i := 0 to |types|
        invariant params == before + AlphabetTypeParams(types[..i])
      {
        assert types[..i + 1][..i] == types[..i];
        params := params + [(AlphabetTypeKey, LetterTypeName(types[i]))];
      }
      assert types[..|types|] == types;
    }
  }

  /** The first four pairs are level, mode, type and language mode, in that order. */
  lemma ParamsStartFixed(s: GameSettings)
    ensures |SettingsParams(s)| >= 5
    ensures SettingsParams(s)[0] == ("level", GameLevelName(s.gameLevel))
    ensures SettingsParams(s)[1] == ("mode", GameModeName(s.gameMode))
    ensures SettingsParams(s)[2] == ("type", GameTypeName(s.gameType))
    ensures SettingsParams(s)[3] == ("language-mode", LanguageModeName(s.languageMode))
  {
  }

  /** The values a key has among the parameters of `s`. */
  lemma {:induction false} AlphabetTypeValues(ts: seq<LetterType>, key: string)
    ensures GetAll(AlphabetTypeParams(ts), key) == if key == AlphabetTypeKey then LetterTypeNames(ts) else []
    decreases |ts|
  {
    if ts != [] {
      var init := ts[..|ts| - 1];
      AlphabetTypeValues(init, key);
      assert AlphabetTypeParams(ts)[..|ts| - 1] == AlphabetTypeParams(init);
      assert LetterTypeNames(ts) == LetterTypeNames(init) + [LetterTypeName(ts[|ts| - 1])];
    }
  }

  /** The pairs before the types. */
  function HeadParams(s: GameSettings): Params {
    FixedParams(s) + NumberOptionsParam(s.numberOfOptions) + [("input-mode", InputModeName(s.inputMode))]
  }

  /** The value `startGame` writes under `key`, for every key but 'alphabet-type'. */
  function WrittenValue(s: GameSettings, key: string): Option<string> {
    if key == "input-mode" then Some(InputModeName(s.inputMode))
    else if key == "number-options" then
      (if s.numberOfOptions.Some? && s.numberOfOptions.value != 0 then Some(IntToString(s.numberOfOptions.value)) else None)
    else if key == "language-mode" then Some(LanguageModeName(s.languageMode))
    else if key == "type" then Some(GameTypeName(s.gameType))
    else if key == "mode" then Some(GameModeName(s.gameMode))
    else if key == "level" then Some(GameLevelName(s.gameLevel))
    else None
  }

  /** Every key other than 'alphabet-type' ends up with the value of its own setting: the
      'number-options' key only when the number is truthy, and no other key at all. */
  lemma ParamsValue(s: GameSettings, key: string)
    requires key != AlphabetTypeKey
    ensures LastValue(SettingsParams(s), key) == WrittenValue(s, key)
  {
    var tail := if s.thaiAlphabetTypes.Some? then AlphabetTypeParams(s.thaiAlphabetTypes.value) else [];
    assert SettingsParams(s) == HeadParams(s) + tail;
    if s.thaiAlphabetTypes.Some? {
      AlphabetTypeValues(s.thaiAlphabetTypes.value, key);
    }
    LastValueAppend(HeadParams(s), tail, key);
    HeadValue(s, key);
  }

  /** The last values among the pairs before the types. */
  lemma HeadValue(s: GameSettings, key: string)
    ensures LastValue(HeadParams(s), key) == WrittenValue(s, key)
  {
    var fixed := FixedParams(s);
    var p5 := fixed + NumberOptionsParam(s.numberOfOptions);
    assert HeadParams(s) == p5 + [("input-mode", InputModeName(s.inputMode))];
    LastValueSnoc(p5, ("input-mode", InputModeName(s.inputMode)), key);
    if NumberOptionsParam(s.numberOfOptions) != [] {
      LastValueSnoc(fixed, ("number-options", IntToString(s.numberOfOptions.value)), key);
    } else {
      assert p5 == fixed;
    }
    FixedValue(s, key);
  }

  /** The last values among the four fixed pairs. */
  lemma FixedValue(s: GameSettings, key: string)
    ensures LastValue(FixedParams(s), key) ==
      if key in {"input-mode", "number-options"} then None else WrittenValue(s, key)
  {
    var p1 := [("level", GameLevelName(s.gameLevel))];
    var p2 := p1 + [("mode", GameModeName(s.gameMode))];
    var p3 := p2 + [("type", GameTypeName(s.gameType))];
    assert FixedParams(s) == p3 + [("language-mode", LanguageModeName(s.languageMode))];
    LastValueSnoc(p3, ("language-mode", LanguageModeName(s.languageMode)), key);
    LastValueSnoc(p2, ("type", GameTypeName(s.gameType)), key);
    LastValueSnoc(p1, ("mode", GameModeName(s.gameMode)), key);
    LastValueSnoc([], ("level", GameLevelName(s.gameLevel)), key);
    assert [] + p1 == p1;
  }

  /** The 'alphabet-type' values are the names of the selected types, in order. */
  lemma ParamsTypes(s: GameSettings)
    ensures GetAll(SettingsParams(s), AlphabetTypeKey) ==
      if s.thaiAlphabetTypes.Some? then LetterTypeNames(s.thaiAlphabetTypes.value) else []
  {
    var tail := if s.thaiAlphabetTypes.Some? then AlphabetTypeParams(s.thaiAlphabetTypes.value) else [];
    assert SettingsParams(s) == HeadParams(s) + tail;
    GetAllAppend(HeadParams(s), tail, AlphabetTypeKey);
    HeadHasNoTypes(s);
    if s.thaiAlphabetTypes.Some? {
      AlphabetTypeValues(s.thaiAlphabetTypes.value, AlphabetTypeKey);
    }
  }

  lemma HeadHasNoTypes(s: GameSettings)
    ensures GetAll(HeadParams(s), AlphabetTypeKey) == []
  {
    HeadValue(s, AlphabetTypeKey);
  }

  /** What the search schema reads from the parameters of `s`. */
  lemma ReadSettingsParams(s: GameSettings)
    ensures ReadParams(SettingsParams(s)) == SearchParams(
      WrittenValue(s, "level"), WrittenValue(s, "mode"), WrittenValue(s, "type"),
      WrittenValue(s, "language-mode"), WrittenValue(s, "number-options"), WrittenValue(s, "input-mode"),
      if s.thaiAlphabetTypes.Some? && s.thaiAlphabetTypes.value != []
      then Some(Many(LetterTypeNames(s.thaiAlphabetTypes.value))) else None)
  {
    ParamsValue(s, "level");
    ParamsValue(s, "mode");
    ParamsValue(s, "type");
    ParamsValue(s, "language-mode");
    ParamsValue(s, "number-options");
    ParamsValue(s, "input-mode");
    ParamsTypes(s);
  }

  /** The recognised types of the names of some types are those types. */
  lemma {:induction false} RecognisedNames(ts: seq<LetterType>)
    ensures RecognisedTypes(LetterTypeNames(ts)) == ts
    decreases |ts|
  {
    if ts != [] {
      assert LetterTypeNames(ts)[1..] == LetterTypeNames(ts[1..]);
      RecognisedNames(ts[1..]);
      LetterTypeNameRoundTrip(ts[0]);
    }
  }

  /** Reading back the parameters of settings whose number of options is from 2 to 6 and
      that select at least one type gives those settings. */
  lemma ParamsRoundTrip(s: GameSettings)
    requires s.numberOfOptions.Some? && MinNumberOfOptions <= s.numberOfOptions.value <= MaxNumberOfOptions
    requires s.thaiAlphabetTypes.Some? && s.thaiAlphabetTypes.value != []
    ensures SettingsFromParams(SettingsParams(s)) == s
  {
    ParseReadsEachKey(SettingsParams(s));
    ReadSettingsParams(s);
    SettingsFromWritten(s);
  }

  /** The settings built from the values `startGame` writes are the settings written. */
  lemma SettingsFromWritten(s: GameSettings)
    requires s.numberOfOptions.Some? && MinNumberOfOptions <= s.numberOfOptions.value <= MaxNumberOfOptions
    requires s.thaiAlphabetTypes.Some? && s.thaiAlphabetTypes.value != []
    ensures SettingsFrom(SearchParams(
      WrittenValue(s, "level"), WrittenValue(s, "mode"), WrittenValue(s, "type"),
      WrittenValue(s, "language-mode"), WrittenValue(s, "number-options"), WrittenValue(s, "input-mode"),
      Some(Many(LetterTypeNames(s.thaiAlphabetTypes.value))))) == s
  {
    EnumValuesRoundTrip(s);
    ParseNumberOfOptionsText(s.numberOfOptions.value);
    RecognisedNames(s.thaiAlphabetTypes.value);
  }

  /** The target of the navigation: the game path, then the serialised parameters. */
  function GameUrl(gameId: int, params: Params): (r: string)
    ensures |r| > |GamesPath| && r[..|GamesPath|] == GamesPath
  {
    GamesPath + IntToString(gameId) + "?" + QueryString(params)
  }

  /** The id `startGame` draws, `Math.floor(Math.random() * 1000)`, from a draw `d`. */
  function NewGameId(d: nat): (id: nat)
    ensures id < 1000
  {
    d % 1000
  }

  /** No id the page draws is one the game page accepts: the game page parses its id with
      the game id schema, which starts at 1000. */
  lemma NewGameIdRefused(d: nat)
    ensures GameIdSchema(IntToString(NewGameId(d))).Failure?
  {
    GameIdOfText(NewGameId(d));
  }

  /** An id drawn from the range the game id schema accepts. */
  function CorrectedGameId(d: nat): (id: nat)
    ensures GameIdMin <= id <= GameIdMax
  {
    GameIdMin + d % (GameIdMax - GameIdMin + 1)
  }

  /** Every corrected id is accepted and read back as itself. */
  lemma CorrectedGameIdAccepted(d: nat)
    ensures GameIdSchema(IntToString(CorrectedGameId(d))) == Success(CorrectedGameId(d))
  {
    GameIdOfText(CorrectedGameId(d));
  }

  /** `startGame`: the URL to navigate to, for the random draw `d`. */
  method StartGame(settings: GameSettings, d: nat) returns (url: string)
    ensures url == GameUrl(NewGameId(d), SettingsParams(settings))
  {
    var gameId := NewGameId(d);
    var params := BuildParams(settings);
    url := GamesPath + IntToString(gameId) + "?" + QueryString(params);
  }

  /** `startGame` with the id drawn from the range the game id schema accepts. */
  method CorrectedStartGame(settings: GameSettings, d: nat) returns (url: string)
    ensures url == GameUrl(CorrectedGameId(d), SettingsParams(settings))
  {
    var gameId := CorrectedGameId(d);
    var params := BuildParams(settings);
    url := GamesPath + IntToString(gameId) + "?" + QueryString(params);
  }

  /** The path every game URL starts with. */
  const GamesPath := "/games/"

  /** The `gameId` path segment the game page is given for a URL under "/games/": what
      follows the prefix, up to the first '?'. */
  function UrlGameId(url: string): (id: string)
    ensures '?' !in id
    ensures |url| >= |GamesPath| && url[..|GamesPath|] == GamesPath ==>
      |GamesPath| + |id| <= |url| && url[|GamesPath|..] == id + url[|GamesPath| + |id|..]
  {
    if |url| >= |GamesPath| && url[..|GamesPath|] == GamesPath then
      var rest := url[|GamesPath|..];
      var id := rest[..IndexOf(rest, '?')];
      assert rest == id + rest[|id|..];
      id
    else ""
  }

  /** A segment without '?' followed by '?' is read back whole. */
  lemma UrlGameIdOf(segment: string, query: string)
    requires '?' !in segment
    ensures UrlGameId(GamesPath + segment + "?" + query) == segment
  {
    var rest := segment + ("?" + query);
    var url := GamesPath + rest;
    assert GamesPath + segment + "?" + query == url;
    assert url[..|GamesPath|] == GamesPath && url[|GamesPath|..] == rest;
    IndexOfAfter(segment, "?" + query, '?');
    assert rest[..|segment|] == segment;
  }

  /** The game page reads back, as its id, exactly the number the URL was built with. */
  lemma GameUrlId(gameId: nat, params: Params)
    ensures UrlGameId(GameUrl(gameId, params)) == IntToString(gameId)
  {
    var digits := IntToString(gameId);
    assert '?' !in digits by {
      assert AllDigits(digits);
      assert !IsDigit('?');
    }
    UrlGameIdOf(digits, QueryString(params));
  }

  /** The first `c` of `a + b` is that of `b` when `a` holds none. */
  lemma {:induction false} IndexOfAfter(a: string, b: string, c: char)
    requires c !in a && b != [] && b[0] == c
    ensures IndexOf(a + b, c) == |a|
    decreases |a|
  {
    if a != [] {
      assert (a + b)[1..] == a[1..] + b;
      IndexOfAfter(a[1..], b, c);
    }
  }

  /** What the game page makes of the URL: the settings, when its id passes the game id
      schema, or the message of the schema's error. */
  function OpenGame(gameId: string, params: Params): (r: Result<GameSettings>)
    ensures r.Success? <==> GameIdSchema(gameId).Success?
    ensures r.Success? ==> r.value == SettingsFromParams(params)
  {
    match GameIdSchema(gameId)
    case Failure(message) => Failure(GetValidationErrorMessage(ZodError([message])))
    case Success(_) => Success(SettingsFromParams(params))
  }

  /** A game page opened with an id the page draws shows an error instead of the game. */
  lemma DrawnGameRefused(params: Params, d: nat)
    ensures OpenGame(IntToString(NewGameId(d)), params).Failure?
  {
    NewGameIdRefused(d);
  }

  /** The game `startGame` navigates to never opens: the id the game page reads from
      its URL fails the game id schema. */
  lemma StartedGameRefused(settings: GameSettings, d: nat)
    ensures var url := GameUrl(NewGameId(d), SettingsParams(settings));
      OpenGame(UrlGameId(url), SettingsParams(settings)).Failure?
  {
    GameUrlId(NewGameId(d), SettingsParams(settings));
    DrawnGameRefused(SettingsParams(settings), d);
  }

  /** A game started with the corrected id opens with the settings it was started with. */
  lemma StartedGameOpens(settings: GameSettings, d: nat)
    requires settings.numberOfOptions.Some? && MinNumberOfOptions <= settings.numberOfOptions.value <= MaxNumberOfOptions
    requires settings.thaiAlphabetTypes.Some? && settings.thaiAlphabetTypes.value != []
    ensures var url := GameUrl(CorrectedGameId(d), SettingsParams(settings));
      OpenGame(UrlGameId(url), SettingsParams(settings)) == Success(settings)
  {
    GameUrlId(CorrectedGameId(d), SettingsParams(settings));
    CorrectedGameIdAccepted(d);
    ParamsRoundTrip(settings);
  }
}
