/** src/app/modules/alphabet/components/AlphabetList.tsx: the list of catalogue entries
    the alphabet page shows, filtered by the selected types. */
module AlphabetList {
  import opened Wrappers
  import opened Letters
  import opened AlphabetFilters
  import ThaiAlphabet

  /** No type is selected. */
  predicate NoneSelected(types: TypeFlags) {
    !types.consonant && !types.vowel && !types.tone
  }

  /** The predicate given to `filter`: everything when no type is selected, otherwise the
      entries whose type is selected. */
  predicate Shown(types: TypeFlags, item: Letter) {
    NoneSelected(types)
    || (types.consonant && item.letterType == Some(Consonant))
    || (types.vowel && item.letterType == Some(Vowel))
    || (types.tone && item.letterType == Some(Tone))
  }

  /** `a` is `b` with some entries left out, the rest in their order. */
  predicate IsSubsequence(a: seq<Letter>, b: seq<Letter>)
    decreases |b|
  {
    a == [] || (b != [] && if a[0] == b[0] then IsSubsequence(a[1..], b[1..]) else IsSubsequence(a, b[1..]))
  }

  /** `filteredAlphabet`: the catalogue entries shown, in catalogue order. */
  function FilteredAlphabet(catalogue: seq<Letter>, types: TypeFlags): (r: seq<Letter>)
    ensures forall x :: x in r <==> x in catalogue && Shown(types, x)
    ensures NoneSelected(types) ==> r == catalogue
    ensures IsSubsequence(r, catalogue)
  {
    if catalogue == [] then []
    else
      var rest := FilteredAlphabet(catalogue[1..], types);
      assert forall x | x in catalogue :: x == catalogue[0] || x in catalogue[1..];
      if Shown(types, catalogue[0]) then
        assert ([catalogue[0]] + rest)[1..] == rest;
        [catalogue[0]] + rest
      else
        SubsequenceSkip(rest, catalogue, catalogue[0]);
        rest
  }

  /** A subsequence of the tail that avoids the head is a subsequence of the whole. */
  lemma SubsequenceSkip(a: seq<Letter>, b: seq<Letter>, head: Letter)
    requires b != [] && b[0] == head && head !in a
    requires IsSubsequence(a, b[1..])
    ensures IsSubsequence(a, b)
  {
  }

  /** With some type selected, no entry of type 'other', or without a type, is shown. */
  lemma OtherNeverShown(catalogue: seq<Letter>, types: TypeFlags, x: Letter)
    requires !NoneSelected(types)
    requires x.letterType == None || x.letterType == Some(Other)
    ensures x !in FilteredAlphabet(catalogue, types)
  {
  }

  /** The catalogue the page lists carries no types, so selecting any type shows nothing. */
  lemma SelectedTypeShowsNothing(types: TypeFlags)
    requires !NoneSelected(types)
    ensures FilteredAlphabet(ThaiAlphabet.Catalogue, types) == []
  {
    ThaiAlphabet.ConsonantClasses();
    NothingShown(ThaiAlphabet.Catalogue, types);
  }

  /** When no entry is shown, the list is empty. */
  lemma {:induction false} NothingShown(catalogue: seq<Letter>, types: TypeFlags)
    requires forall k | 0 <= k < |catalogue| :: !Shown(types, catalogue[k])
    ensures FilteredAlphabet(catalogue, types) == []
  {
    if catalogue != [] {
      assert !Shown(types, catalogue[0]);
      NothingShown(catalogue[1..], types);
    }
  }
}
