/** The server-side helpers of src/app/modules/alphabet/actions.ts: the per-identifier
    rate limiter, the file-name sanitiser and the catalogue lookup. The image generation
    they guard is left out. */
module AlphabetActions {
  import opened Wrappers
  import opened Letters
  import opened JsText
  import ThaiAlphabet

  const RateLimitMaxRequests := 5
  /** One minute, in milliseconds. */
  const RateLimitWindowMs := 60 * 1000

  /** The requests counted for one identifier, and when its window ends. */
  datatype Entry = Entry(count: int, resetTime: int)

  /** One `checkRateLimit(identifier)` call at time `now`: whether the request is allowed,
      and the map afterwards. A request opens a new window when the identifier is unknown
      or its window has passed; inside a window it is refused from the fifth request on
      and otherwise counted. */
  function RateLimitStep(entries: map<string, Entry>, identifier: string, now: int): (r: (bool, map<string, Entry>))
    ensures r.1.Keys == entries.Keys + {identifier}
    ensures forall other | other in entries && other != identifier :: r.1[other] == entries[other]
    ensures identifier !in entries || now > entries[identifier].resetTime ==>
      r.0 && r.1[identifier] == Entry(1, now + RateLimitWindowMs)
    ensures identifier in entries && now <= entries[identifier].resetTime ==>
      (r.0 <==> entries[identifier].count < RateLimitMaxRequests) &&
      r.1[identifier] == if r.0 then entries[identifier].(count := entries[identifier].count + 1) else entries[identifier]
  {
    if identifier !in entries || now > entries[identifier].resetTime then
      (true, entries[identifier := Entry(1, now + RateLimitWindowMs)])
    else if entries[identifier].count >= RateLimitMaxRequests then
      (false, entries)
    else
      var entry := entries[identifier];
      (true, entries[identifier := entry.(count := entry.count + 1)])
  }

  /** Every count is from 1 to the maximum. */
  predicate CountsBounded(entries: map<string, Entry>) {
    forall id | id in entries :: 1 <= entries[id].count <= RateLimitMaxRequests
  }

  /** The limiter keeps every count from 1 to the maximum. */
  lemma StepKeepsCountsBounded(entries: map<string, Entry>, identifier: string, now: int)
    requires CountsBounded(entries)
    ensures CountsBounded(RateLimitStep(entries, identifier, now).1)
  {
  }

  /** The number of requests allowed when `identifier` asks at each of the times in
      `times`, one after the other. */
  function AllowedCount(entries: map<string, Entry>, identifier: string, times: seq<int>): (n: nat)
    ensures n <= |times|
    decreases |times|
  {
    if times == [] then 0
    else
      var (allowed, next) := RateLimitStep(entries, identifier, times[0]);
      (if allowed then 1 else 0) + AllowedCount(next, identifier, times[1..])
  }

  /** Within one window, an identifier is allowed at most the maximum number of requests
      in all, counting those already counted. */
  lemma {:induction false} AtMostMaxPerWindow(entries: map<string, Entry>, identifier: string, times: seq<int>)
    requires identifier in entries
    requires forall k | 0 <= k < |times| :: times[k] <= entries[identifier].resetTime
    ensures entries[identifier].count + AllowedCount(entries, identifier, times) <= RateLimitMaxRequests
      || AllowedCount(entries, identifier, times) == 0
  {
    if times != [] {
      var next := RateLimitStep(entries, identifier, times[0]).1;
      assert next[identifier].resetTime == entries[identifier].resetTime;
      AtMostMaxPerWindow(next, identifier, times[1..]);
    }
  }

  /** The in-memory `rateLimitMap` and the `checkRateLimit` that updates it. */
  class RateLimiter {
    var entries: map<string, Entry>

    constructor()
      ensures entries == map[]
    {
      entries := map[];
    }

    /** `checkRateLimit(identifier)`, with `Date.now()` given as `now`. */
    method CheckRateLimit(identifier: string, now: int) returns (allowed: bool)
      modifies this
      ensures (allowed, entries) == RateLimitStep(old(entries), identifier, now)
    {
      if identifier !in entries || now > entries[identifier].resetTime {
        entries := entries[identifier := Entry(1, now + RateLimitWindowMs)];
        return true;
      }
      var entry := entries[identifier];
      if entry.count >= RateLimitMaxRequests {
        return false;
      }
      entries := entries[identifier := entry.(count := entry.count + 1)];
      return true;
    }
  }

  /** `replace(/\.\./g, '')`: each ".." found scanning from the left removed; what the
      removal brings together is not scanned again. */
  function RemoveDotDot(s: string): (r: string)
    ensures |r| <= |s|
    ensures forall c | c in r :: c in s
  {
    if |s| >= 2 && s[0] == '.' && s[1] == '.' then RemoveDotDot(s[2..])
    else if s == [] then []
    else [s[0]] + RemoveDotDot(s[1..])
  }

  /** The characters a file name may not hold: the path separators, `<>:"|?*` and the
      control characters U+0000 to U+001F. */
  predicate IsSeparator(c: char) {
    c == '/' || c == '\\'
  }

  predicate IsInvalidFileChar(c: char) {
    c in "<>:\"|?*" || c as int <= 0x1f
  }

  /** `replace(/[...]/g, '')` for a character class: every character in it removed. */
  function RemoveSeparators(s: string): (r: string)
    ensures forall c | c in r :: c in s && !IsSeparator(c)
    ensures (forall c | c in s :: !IsSeparator(c)) ==> r == s
  {
    if s == [] then []
    else (if IsSeparator(s[0]) then [] else [s[0]]) + RemoveSeparators(s[1..])
  }

  function RemoveInvalidFileChars(s: string): (r: string)
    ensures forall c | c in r :: c in s && !IsInvalidFileChar(c)
    ensures (forall c | c in s :: !IsInvalidFileChar(c)) ==> r == s
  {
    if s == [] then []
    else (if IsInvalidFileChar(s[0]) then [] else [s[0]]) + RemoveInvalidFileChars(s[1..])
  }

  lemma NoInvalidFileChars(s: string)
    requires forall c | c in s :: !IsInvalidFileChar(c)
    ensures RemoveInvalidFileChars(s) == s
  {
  }

  /** `sanitizePathComponent(component)`. */
  function SanitizePathComponent(component: string): (r: string)
    ensures IsTrimmed(r)
    ensures forall c | c in r :: c in component && !IsSeparator(c) && !IsInvalidFileChar(c)
  {
    var cleaned := RemoveInvalidFileChars(RemoveSeparators(RemoveDotDot(component)));
    var r := Trim(cleaned);
    forall c | c in r ensures c in cleaned {
      TrimChars(cleaned, c);
    }
    r
  }

  /** No two dots side by side. */
  predicate NoDotDot(s: string) {
    forall k | 0 <= k < |s| - 1 :: !(s[k] == '.' && s[k + 1] == '.')
  }

  /** A name with nothing to remove is left as it is. */
  lemma SanitizeKeepsCleanName(component: string)
    requires IsTrimmed(component) && NoDotDot(component)
    requires forall c | c in component :: !IsSeparator(c) && !IsInvalidFileChar(c)
    ensures SanitizePathComponent(component) == component
  {
    NoDotDotKept(component);
    TrimTrimmed(component);
  }

  lemma {:induction false} NoDotDotKept(s: string)
    requires NoDotDot(s)
    ensures RemoveDotDot(s) == s
  {
    if s != [] {
      assert NoDotDot(s[1..]) by {
        forall k | 0 <= k < |s[1..]| - 1 ensures !(s[1..][k] == '.' && s[1..][k + 1] == '.') {
          assert s[1..][k] == s[k + 1] && s[1..][k + 1] == s[k + 2];
        }
      }
      NoDotDotKept(s[1..]);
    }
  }

  /** The sanitiser does not remove every "..": removing the '/' of "./." joins its dots. */
  lemma DotDotSurvives()
    ensures SanitizePathComponent("./.") == ".."
  {
    DotSlashDot();
    DotsAreValid();
    assert IsTrimmed("..");
    TrimTrimmed("..");
  }

  lemma DotsAreValid()
    ensures RemoveInvalidFileChars("..") == ".."
  {
    assert !IsInvalidFileChar('.');
    NoInvalidFileChars("..");
  }

  lemma DotSlashDot()
    ensures RemoveSeparators(RemoveDotDot("./.")) == ".."
  {
    assert NoDotDot("./.");
    NoDotDotKept("./.");
    assert "./."[1..] == "/." && "/."[1..] == "." && "."[1..] == "";
  }

  /** `findAlphabet(alphabet)`: the first catalogue entry with that symbol, if any. */
  function FindAlphabet(alphabet: string): (r: Option<Letter>)
    ensures r.Some? ==> r.value in ThaiAlphabet.Catalogue && r.value.symbol == alphabet
    ensures r.None? <==> forall x | x in ThaiAlphabet.Catalogue :: x.symbol != alphabet
  {
    FindBySymbol(ThaiAlphabet.Catalogue, alphabet)
  }

  /** Each catalogue entry is found by its own symbol. */
  lemma FindAlphabetOwnSymbol(i: int)
    requires 0 <= i < |ThaiAlphabet.Catalogue|
    ensures FindAlphabet(ThaiAlphabet.Catalogue[i].symbol) == Some(ThaiAlphabet.Catalogue[i])
  {
    ThaiAlphabet.SymbolsDistinct();
    FindOwnSymbol(ThaiAlphabet.Catalogue, i);
  }
}
