/** The `URLSearchParams` operations the pages use, over the list of name-value pairs the
    object holds: `append`, `delete`, `getAll`, the last value a `forEach` leaves behind,
    and `toString()`, the application/x-www-form-urlencoded serialisation of the URL
    Standard (UTF-8 percent-encoding, '+' for a space). */
module UrlSearchParams {
  import opened Wrappers

  /** The pairs of a `URLSearchParams`, in order. */
  type Params = seq<(string, string)>

  /** `params.getAll(key)`: the values under `key`, in order. */
  function GetAll(params: Params, key: string): (r: seq<string>)
    ensures |r| <= |params|
    ensures forall v :: v in r <==> (key, v) in params
  {
    if params == [] then []
    else
      var last := params[|params| - 1];
      var r := GetAll(params[..|params| - 1], key) + (if last.0 == key then [last.1] else []);
      assert forall p | p in params :: p in params[..|params| - 1] || p == last;
      r
  }

  /** `getAll` of two lists joined is the values of the first, then of the second. */
  lemma {:induction false} GetAllAppend(a: Params, b: Params, key: string)
    ensures GetAll(a + b, key) == GetAll(a, key) + GetAll(b, key)
    decreases |b|
  {
    if b == [] {
      assert a + b == a;
    } else {
      assert (a + b)[..|a + b| - 1] == a + b[..|b| - 1];
      GetAllAppend(a, b[..|b| - 1], key);
    }
  }

  /** The value a key ends up with when every pair in turn assigns its value to its key:
      the last value under `key`, if any. */
  function LastValue(params: Params, key: string): (r: Option<string>)
    ensures r.None? <==> GetAll(params, key) == []
    ensures r.Some? ==> r.value == GetAll(params, key)[|GetAll(params, key)| - 1]
  {
    if params == [] then None
    else if params[|params| - 1].0 == key then Some(params[|params| - 1].1)
    else LastValue(params[..|params| - 1], key)
  }

  /** The last value of two lists joined is the second's, or else the first's. */
  lemma LastValueAppend(a: Params, b: Params, key: string)
    ensures LastValue(a + b, key) == if GetAll(b, key) != [] then LastValue(b, key) else LastValue(a, key)
  {
    GetAllAppend(a, b, key);
  }

  /** One more pair gives its key a new last value and leaves the other keys alone. */
  lemma LastValueSnoc(params: Params, pair: (string, string), key: string)
    ensures LastValue(params + [pair], key) == if pair.0 == key then Some(pair.1) else LastValue(params, key)
  {
    assert (params + [pair])[..|params|] == params;
  }

  /** `params.delete(key)`: every pair under `key` removed, the others kept in order. */
  function Delete(params: Params, key: string): (r: Params)
    ensures forall p :: p in r <==> p in params && p.0 != key
  {
    if params == [] then []
    else
      var last := params[|params| - 1];
      var r := Delete(params[..|params| - 1], key) + (if last.0 == key then [] else [last]);
      assert forall p | p in params :: p in params[..|params| - 1] || p == last;
      r
  }

  /** After deleting a key, no value is left under it. */
  lemma {:induction false} DeleteRemovesKey(params: Params, key: string)
    ensures GetAll(Delete(params, key), key) == []
    decreases |params|
  {
    if params != [] {
      var init := params[..|params| - 1];
      var last := params[|params| - 1];
      DeleteRemovesKey(init, key);
      GetAllAppend(Delete(init, key), if last.0 == key then [] else [last], key);
    }
  }

  /** Deleting one key leaves the values of every other key as they were. */
  lemma {:induction false} DeleteKeepsOthers(params: Params, key: string, other: string)
    requires other != key
    ensures GetAll(Delete(params, key), other) == GetAll(params, other)
    decreases |params|
  {
    if params != [] {
      var init := params[..|params| - 1];
      var last := params[|params| - 1];
      DeleteKeepsOthers(init, key, other);
      GetAllAppend(Delete(init, key), if last.0 == key then [] else [last], other);
    }
  }

  /** Characters the serialisation writes as they are. */
  predicate IsUnreserved(c: char) {
    ('a' <= c <= 'z') || ('A' <= c <= 'Z') || ('0' <= c <= '9') || c == '*' || c == '-' || c == '.' || c == '_'
  }

  predicate AllUnreserved(s: string) {
    forall k | 0 <= k < |s| :: IsUnreserved(s[k])
  }

  /** The UTF-8 encoding of one character. */
  function Utf8(c: char): (bytes: seq<nat>)
    ensures 1 <= |bytes| <= 4 && forall k | 0 <= k < |bytes| :: bytes[k] < 256
  {
    var n := c as int;
    if n < 0x80 then [n]
    else if n < 0x800 then [0xC0 + n / 64, 0x80 + n % 64]
    else if n < 0x10000 then [0xE0 + n / 4096, 0x80 + (n / 64) % 64, 0x80 + n % 64]
    else [0xF0 + n / 262144, 0x80 + (n / 4096) % 64, 0x80 + (n / 64) % 64, 0x80 + n % 64]
  }

  function HexDigit(d: nat): (c: char)
    requires d < 16
    ensures IsUnreserved(c)
  {
    "0123456789ABCDEF"[d]
  }

  /** Each byte as '%' and two upper-case hex digits. */
  function PercentEncode(bytes: seq<nat>): (r: string)
    requires forall k | 0 <= k < |bytes| :: bytes[k] < 256
    ensures |r| == 3 * |bytes|
    ensures forall k | 0 <= k < |r| :: IsUnreserved(r[k]) || r[k] == '%'
  {
    if bytes == [] then []
    else ['%', HexDigit(bytes[0] / 16), HexDigit(bytes[0] % 16)] + PercentEncode(bytes[1..])
  }

  /** Text made only of what the serialisation writes: unreserved characters, '+' and '%'. */
  predicate IsEncoded(s: string) {
    forall k | 0 <= k < |s| :: IsUnreserved(s[k]) || s[k] == '+' || s[k] == '%'
  }

  lemma EncodedConcat(a: string, b: string)
    requires IsEncoded(a) && IsEncoded(b)
    ensures IsEncoded(a + b)
  {
    assert forall k | |a| <= k < |a + b| :: (a + b)[k] == b[k - |a|];
  }

  /** One character of a name or value, form-urlencoded. */
  function EncodeChar(c: char): (r: string)
    ensures IsEncoded(r)
    ensures IsUnreserved(c) ==> r == [c]
  {
    if IsUnreserved(c) then [c]
    else if c == ' ' then "+"
    else PercentEncode(Utf8(c))
  }

  /** A name or value, form-urlencoded. */
  function FormEncode(s: string): (r: string)
    ensures IsEncoded(r)
    ensures AllUnreserved(s) ==> r == s
  {
    if s == [] then []
    else
      var head := EncodeChar(s[0]);
      var tail := FormEncode(s[1..]);
      EncodedConcat(head, tail);
      head + tail
  }

  /** `params.toString()`: each pair as `name=value`, joined by '&'. */
  function QueryString(params: Params): string {
    if params == [] then ""
    else if |params| == 1 then Pair(params[0])
    else Pair(params[0]) + "&" + QueryString(params[1..])
  }

  function Pair(p: (string, string)): (r: string)
    ensures AllUnreserved(p.0) && AllUnreserved(p.1) ==> r == p.0 + "=" + p.1
  {
    FormEncode(p.0) + "=" + FormEncode(p.1)
  }

  /** No encoded name or value holds the '&' and '=' that separate them, so the query
      string splits back into its pairs. */
  lemma EncodedHasNoSeparator(s: string)
    ensures '&' !in FormEncode(s) && '=' !in FormEncode(s)
  {
    var r := FormEncode(s);
    assert forall k | 0 <= k < |r| :: r[k] != '&' && r[k] != '=';
  }
}
