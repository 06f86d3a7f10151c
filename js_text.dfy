/** The JavaScript string operations the validators rely on: `trim()`, a global
    single-character `replace`, the tag-removing `replace(/<[^>]*>/g, '')`, the `/<[^>]*>/`
    test and `length` in UTF-16 code units. */
module JsText {
  /** The characters `String.prototype.trim` removes: ECMAScript WhiteSpace (tab, vertical
      tab, form feed, the byte order mark and every space separator) and LineTerminator. */
  predicate IsJsWhitespace(c: char) {
    var n := c as int;
    || n == 0x09 || n == 0x0B || n == 0x0C || n == 0x20 || n == 0xA0 || n == 0xFEFF
    || n == 0x1680 || (0x2000 <= n <= 0x200A) || n == 0x202F || n == 0x205F || n == 0x3000
    || n == 0x0A || n == 0x0D || n == 0x2028 || n == 0x2029
  }

  predicate AllWhitespace(s: string) {
    forall k | 0 <= k < |s| :: IsJsWhitespace(s[k])
  }

  /** Neither end of `s` is whitespace. */
  predicate IsTrimmed(s: string) {
    s == [] || (!IsJsWhitespace(s[0]) && !IsJsWhitespace(s[|s| - 1]))
  }

  /** The length of the leading whitespace of `s`. */
  function LeadingWhitespace(s: string): (n: nat)
    ensures n <= |s| && AllWhitespace(s[..n])
    ensures n < |s| ==> !IsJsWhitespace(s[n])
  {
    if s == [] || !IsJsWhitespace(s[0]) then 0
    else
      var n := 1 + LeadingWhitespace(s[1..]);
      assert forall k | 1 <= k < n :: s[k] == s[1..][k - 1];
      n
  }

  /** The length of the trailing whitespace of `s`. */
  function TrailingWhitespace(s: string): (n: nat)
    ensures n <= |s| && AllWhitespace(s[|s| - n..])
    ensures n < |s| ==> !IsJsWhitespace(s[|s| - 1 - n])
  {
    if s == [] || !IsJsWhitespace(s[|s| - 1]) then 0
    else
      var n := 1 + TrailingWhitespace(s[..|s| - 1]);
      assert forall k | |s| - n <= k < |s| - 1 :: s[k] == s[..|s| - 1][k];
      n
  }

  /** `s.trim()`: `s` without its leading and trailing whitespace. The result is the part of
      `s` after its leading whitespace, and all that is cut off is whitespace. */
  function Trim(s: string): (r: string)
    ensures IsTrimmed(r)
    ensures var i := LeadingWhitespace(s);
      i + |r| <= |s| && r == s[i..i + |r|] && AllWhitespace(s[i + |r|..])
  {
    var i := LeadingWhitespace(s);
    var rest := s[i..];
    var r := rest[..|rest| - TrailingWhitespace(rest)];
    assert s[i + |r|..] == rest[|r|..];
    r
  }

  /** Trimming text whose ends are not whitespace changes nothing. */
  lemma TrimTrimmed(s: string)
    requires IsTrimmed(s)
    ensures Trim(s) == s
  {
    if s != [] {
      var r := Trim(s);
      assert AllWhitespace(s[|r|..]);
    }
  }

  /** Trimming is idempotent. */
  lemma TrimIdempotent(s: string)
    ensures Trim(Trim(s)) == Trim(s)
  {
    TrimTrimmed(Trim(s));
  }

  /** Whitespace-only text trims to the empty string, and only it does. */
  lemma TrimEmpty(s: string)
    ensures Trim(s) == [] <==> AllWhitespace(s)
  {
    var i := LeadingWhitespace(s);
    if Trim(s) == [] {
      assert s == s[..i] + s[i..];
      assert s[..i] == s;
    }
  }

  /** Every character of the trimmed text occurs in the text. */
  lemma TrimChars(s: string, c: char)
    ensures c in Trim(s) ==> c in s
  {
    var r := Trim(s);
    var i := LeadingWhitespace(s);
    if c in r {
      var k :| 0 <= k < |r| && r[k] == c;
      assert s[i + k] == c;
    }
  }

  /** `s.length`: the number of UTF-16 code units, two for a character outside the Basic
      Multilingual Plane. */
  function Utf16Length(s: string): (n: nat)
    ensures |s| <= n <= 2 * |s|
  {
    if s == [] then 0
    else Utf16Length(s[..|s| - 1]) + (if s[|s| - 1] as int >= 0x10000 then 2 else 1)
  }

  /** `s.replace(/c/g, rep)`: every `c` replaced by `rep`. */
  function ReplaceAll(s: string, c: char, rep: string): (r: string)
    ensures c !in rep ==> c !in r
  {
    if s == [] then []
    else (if s[0] == c then rep else [s[0]]) + ReplaceAll(s[1..], c, rep)
  }

  /** Text without `c` is left as it is. */
  lemma {:induction false} ReplaceAllAbsent(s: string, c: char, rep: string)
    requires c !in s
    ensures ReplaceAll(s, c, rep) == s
  {
    if s != [] {
      ReplaceAllAbsent(s[1..], c, rep);
    }
  }

  /** Replacing writes no character that was in neither the text nor the replacement. */
  lemma {:induction false} ReplaceAllChars(s: string, c: char, rep: string, d: char)
    requires d !in s && d !in rep
    ensures d !in ReplaceAll(s, c, rep)
  {
    if s != [] {
      ReplaceAllChars(s[1..], c, rep, d);
      assert d !in (if s[0] == c then rep else [s[0]]);
    }
  }

  /** `/<[^>]*>/.test(s)`: some '<' has a '>' after it. */
  predicate HasTag(s: string) {
    exists i, j | 0 <= i < j < |s| :: s[i] == '<' && s[j] == '>'
  }

  /** The index of the first `c` in `s`, or `|s|` when there is none. */
  function IndexOf(s: string, c: char): (i: nat)
    ensures i <= |s| && c !in s[..i]
    ensures i < |s| ==> s[i] == c
  {
    if s == [] || s[0] == c then 0
    else
      var i := 1 + IndexOf(s[1..], c);
      assert s[..i] == [s[0]] + s[1..][..i - 1];
      i
  }

  /** `s.replace(/<[^>]*>/g, '')`: scanning from the left, a '<' with a '>' after it is
      removed together with everything up to and including the first such '>'; a '<'
      without one, and every other character, is kept. */
  function StripTags(s: string): (r: string)
    ensures forall d | d in r :: d in s
    ensures '<' !in s ==> r == s
    decreases |s|
  {
    if s == [] then []
    else if s[0] == '<' && '>' in s[1..] then
      StripTags(s[1..][IndexOf(s[1..], '>') + 1..])
    else [s[0]] + StripTags(s[1..])
  }

  /** Nothing tag-like survives `StripTags`. */
  lemma {:induction false} StripTagsLeavesNoTag(s: string)
    ensures !HasTag(StripTags(s))
    decreases |s|
  {
    if s == [] {
    } else if s[0] == '<' && '>' in s[1..] {
      StripTagsLeavesNoTag(s[1..][IndexOf(s[1..], '>') + 1..]);
    } else {
      var rest := StripTags(s[1..]);
      StripTagsLeavesNoTag(s[1..]);
      var r := [s[0]] + rest;
      if s[0] == '<' {
        assert '>' !in rest;
      }
      forall i, j | 0 <= i < j < |r| && r[i] == '<' ensures r[j] != '>' {
        if i > 0 {
          assert rest[i - 1] == '<' && rest[j - 1] == r[j];
        } else {
          assert r[j] == rest[j - 1] && rest[j - 1] in rest;
        }
      }
    }
  }
}
