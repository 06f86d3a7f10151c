/** The alphabet entry shared by both catalogues and the game engine
    (the `ThaiAlphabet` interfaces of src/app/types.ts and src/app/types.d.ts),
    with the list helpers the source applies to catalogues: `find`, `findIndex`
    and the `filter` that drops one symbol. */
module Letters {
  import opened Wrappers

  /** `ThaiAlphabetType`, declared in this order. */
  datatype LetterType = Consonant | Vowel | Tone | Other

  datatype ConsonantGroup = Low | Middle | High

  /** `Object.values(ThaiAlphabetType)`: every type, in declaration order. */
  const AllLetterTypes: seq<LetterType> := [Consonant, Vowel, Tone, Other]

  /** A catalogue entry. The interface makes every field but `symbol` (the source's
      `alphabet`) and `order` optional; an absent field is `None`. */
  datatype Letter = Letter(
    symbol: string,
    order: int,
    letterType: Option<LetterType> := None,
    consonantGroup: Option<ConsonantGroup> := None,
    imageSrc: Option<string> := None,
    thaiExamplePrefix: Option<string> := None,
    thaiExampleDescription: Option<string> := None,
    romanTransliterationPrefix: Option<string> := None,
    romanTransliteration: Option<string> := None,
    romanDescription: Option<string> := None,
    romanization: Option<string> := None,
    romanExampleDescription: Option<string> := None,
    isConsonant: Option<bool> := None)

  /** The string value of each `ThaiAlphabetType` member. */
  function LetterTypeName(t: LetterType): string {
    match t
    case Consonant => "consonant"
    case Vowel => "vowel"
    case Tone => "tone"
    case Other => "other"
  }

  /** `Object.values(ThaiAlphabetType).includes(s)`, returning the member found. */
  function ParseLetterType(s: string): (r: Option<LetterType>)
    ensures r.Some? ==> LetterTypeName(r.value) == s
    ensures r.None? ==> forall t: LetterType :: LetterTypeName(t) != s
  {
    if s == "consonant" then Some(Consonant)
    else if s == "vowel" then Some(Vowel)
    else if s == "tone" then Some(Tone)
    else if s == "other" then Some(Other)
    else None
  }

  lemma LetterTypeNameRoundTrip(t: LetterType)
    ensures ParseLetterType(LetterTypeName(t)) == Some(t)
  {
  }

  lemma AllLetterTypesComplete(t: LetterType)
    ensures t in AllLetterTypes
  {
  }

  /** No two entries share a symbol: the symbol is an entry's identity. */
  predicate DistinctSymbols(xs: seq<Letter>) {
    forall i, j | 0 <= i < j < |xs| :: xs[i].symbol != xs[j].symbol
  }

  /** `xs.findIndex(x => x.alphabet === s)`: the first index with symbol `s`, or -1. */
  function IndexOfSymbol(xs: seq<Letter>, s: string): (i: int)
    ensures -1 <= i < |xs|
    ensures 0 <= i ==> xs[i].symbol == s && forall k | 0 <= k < i :: xs[k].symbol != s
    ensures i == -1 <==> forall k | 0 <= k < |xs| :: xs[k].symbol != s
  {
    if xs == [] then -1
    else if xs[0].symbol == s then 0
    else
      var rest := IndexOfSymbol(xs[1..], s);
      if rest == -1 then -1 else rest + 1
  }

  /** `xs.find(x => x.alphabet === s)`: the first entry with symbol `s`, if any. */
  function FindBySymbol(xs: seq<Letter>, s: string): (r: Option<Letter>)
    ensures r.Some? ==> r.value in xs && r.value.symbol == s
    ensures r.None? <==> forall x | x in xs :: x.symbol != s
  {
    var i := IndexOfSymbol(xs, s);
    if i < 0 then None else Some(xs[i])
  }

  /** With distinct symbols, looking an entry's symbol up finds that very entry. */
  lemma FindOwnSymbol(xs: seq<Letter>, i: int)
    requires DistinctSymbols(xs)
    requires 0 <= i < |xs|
    ensures IndexOfSymbol(xs, xs[i].symbol) == i
    ensures FindBySymbol(xs, xs[i].symbol) == Some(xs[i])
  {
  }

  /** `xs.filter(x => x.alphabet !== s)`. */
  function WithoutSymbol(xs: seq<Letter>, s: string): (r: seq<Letter>)
    ensures |r| <= |xs|
    ensures forall x :: x in r <==> x in xs && x.symbol != s
  {
    if xs == [] then []
    else if xs[0].symbol == s then WithoutSymbol(xs[1..], s)
    else [xs[0]] + WithoutSymbol(xs[1..], s)
  }

  /** The tail of a list with distinct symbols has distinct symbols, none equal to the head's. */
  lemma DistinctTail(xs: seq<Letter>)
    requires DistinctSymbols(xs) && xs != []
    ensures DistinctSymbols(xs[1..])
    ensures forall x | x in xs[1..] :: x.symbol != xs[0].symbol
  {
    assert forall k | 0 <= k < |xs[1..]| :: xs[1..][k] == xs[k + 1];
  }

  /** Prepending an entry whose symbol the list lacks keeps the symbols distinct. */
  lemma DistinctCons(x: Letter, r: seq<Letter>)
    requires DistinctSymbols(r)
    requires forall y | y in r :: y.symbol != x.symbol
    ensures DistinctSymbols([x] + r)
  {
    forall i, j | 0 <= i < j < |[x] + r| ensures ([x] + r)[i].symbol != ([x] + r)[j].symbol {
      assert ([x] + r)[j] == r[j - 1];
      if i > 0 {
        assert ([x] + r)[i] == r[i - 1];
      }
    }
  }

  /** Dropping one symbol keeps the others distinct. */
  lemma {:induction false} WithoutSymbolDistinct(xs: seq<Letter>, s: string)
    requires DistinctSymbols(xs)
    ensures DistinctSymbols(WithoutSymbol(xs, s))
  {
    if xs != [] {
      DistinctTail(xs);
      WithoutSymbolDistinct(xs[1..], s);
      if xs[0].symbol != s {
        DistinctCons(xs[0], WithoutSymbol(xs[1..], s));
      }
    }
  }

  /** With distinct symbols, dropping a symbol removes exactly one entry when it occurs
      and none otherwise. */
  lemma {:induction false} WithoutSymbolLength(xs: seq<Letter>, s: string)
    requires DistinctSymbols(xs)
    ensures |WithoutSymbol(xs, s)| == if IndexOfSymbol(xs, s) == -1 then |xs| else |xs| - 1
  {
    if xs != [] {
      DistinctTail(xs);
      WithoutSymbolLength(xs[1..], s);
      if xs[0].symbol == s {
        assert IndexOfSymbol(xs[1..], s) == -1;
      }
    }
  }
}
