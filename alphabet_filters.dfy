/** src/app/modules/alphabet/hooks/useAlphabetFilters.tsx: the alphabet page's type filter
    lives in the URL as the multi-valued 'type' key. `toggleAlphabetType` adds or removes
    one type; `filters` reports which types are selected. The navigation to the new URL
    is left out; the new parameters are computed. */
module AlphabetFilters {
  import opened Letters
  import opened UrlSearchParams

  const TypeKey := "type"

  /** `xs.filter(x => x !== v)`. */
  function RemoveAll(xs: seq<string>, v: string): (r: seq<string>)
    ensures v !in r
    ensures forall x :: x in r <==> x in xs && x != v
    ensures v !in xs ==> r == xs
  {
    if xs == [] then []
    else (if xs[0] == v then [] else [xs[0]]) + RemoveAll(xs[1..], v)
  }

  /** The 'type' values after toggling `v`: every occurrence removed when present, `v`
      appended when absent. */
  function Toggled(xs: seq<string>, v: string): (r: seq<string>)
    ensures v in xs ==> v !in r && forall x | x != v :: x in r <==> x in xs
    ensures v !in xs ==> r == xs + [v]
  {
    if v in xs then RemoveAll(xs, v) else xs + [v]
  }

  /** The filter works element by element: filtering a concatenation filters each part, so
      the kept types stay in their input order, each as often as it occurred. */
  lemma {:induction false} RemoveAllAppend(a: seq<string>, b: seq<string>, v: string)
    ensures RemoveAll(a + b, v) == RemoveAll(a, v) + RemoveAll(b, v)
    decreases |a|
  {
    if a == [] {
      assert a + b == b;
    } else {
      assert (a + b)[0] == a[0];
      assert (a + b)[1..] == a[1..] + b;
      RemoveAllAppend(a[1..], b, v);
    }
  }

  /** Toggling off a present type keeps every other type where it was: the types before and
      after any split point are filtered separately and stay in that order. */
  lemma ToggledKeepsOrder(a: seq<string>, b: seq<string>, v: string)
    requires v in a + b
    ensures Toggled(a + b, v) == RemoveAll(a, v) + RemoveAll(b, v)
  {
    RemoveAllAppend(a, b, v);
  }

  /** One pair under `key` per value, in order. */
  function KeyPairs(key: string, values: seq<string>): (r: Params)
    ensures |r| == |values|
    ensures forall k | 0 <= k < |r| :: r[k] == (key, values[k])
  {
    if values == [] then []
    else KeyPairs(key, values[..|values| - 1]) + [(key, values[|values| - 1])]
  }

  /** The parameters after toggling the type named `v`: when present, the 'type' pairs
      are deleted and the remaining values appended again; when absent, one pair is
      appended. */
  function ToggledParams(params: Params, v: string): Params {
    var current := GetAll(params, TypeKey);
    if v in current then Delete(params, TypeKey) + KeyPairs(TypeKey, RemoveAll(current, v))
    else params + [(TypeKey, v)]
  }

  /** `toggleAlphabetType(type)` on a copy of the current parameters. */
  method ToggleAlphabetType(params: Params, t: LetterType) returns (newParams: Params)
    ensures newParams == ToggledParams(params, LetterTypeName(t))
  {
    newParams := params;
    var name := LetterTypeName(t);
    var currentTypes := GetAll(newParams, TypeKey);
    if name in currentTypes {
      var updatedTypes := RemoveAll(currentTypes, name);
      newParams := Delete(newParams, TypeKey);
      var base := newParams;
      for i := 0 to |updatedTypes|
        invariant newParams == base + KeyPairs(TypeKey, updatedTypes[..i])
      {
        assert updatedTypes[..i + 1][..i] == updatedTypes[..i];
        newParams := newParams + [(TypeKey, updatedTypes[i])];
      }
      assert updatedTypes[..|updatedTypes|] == updatedTypes;
    } else {
      newParams := newParams + [(TypeKey, name)];
    }
    if GetAll(newParams, TypeKey) == [] {
      DeleteAbsent(newParams, TypeKey);
      newParams := Delete(newParams, TypeKey);
    }
  }

  /** Deleting a key that has no value changes nothing. */
  lemma {:induction false} DeleteAbsent(params: Params, key: string)
    requires GetAll(params, key) == []
    ensures Delete(params, key) == params
    decreases |params|
  {
    if params != [] {
      var init := params[..|params| - 1];
      GetAllAppend(init, [params[|params| - 1]], key);
      assert init + [params[|params| - 1]] == params;
      DeleteAbsent(init, key);
    }
  }

  /** The values of the pairs under `key`, and no value under any other key. */
  lemma {:induction false} KeyPairsValues(key: string, values: seq<string>, other: string)
    ensures GetAll(KeyPairs(key, values), other) == if other == key then values else []
    ensures Delete(KeyPairs(key, values), key) == []
    decreases |values|
  {
    if values != [] {
      var init := values[..|values| - 1];
      KeyPairsValues(key, init, other);
      assert KeyPairs(key, values)[..|values| - 1] == KeyPairs(key, init);
      assert init + [values[|values| - 1]] == values;
    }
  }

  /** Toggling leaves the 'type' values toggled and every other pair as it was, in order. */
  lemma ToggleEffect(params: Params, v: string)
    ensures GetAll(ToggledParams(params, v), TypeKey) == Toggled(GetAll(params, TypeKey), v)
    ensures Delete(ToggledParams(params, v), TypeKey) == Delete(params, TypeKey)
  {
    var current := GetAll(params, TypeKey);
    if v in current {
      var kept := KeyPairs(TypeKey, RemoveAll(current, v));
      KeyPairsValues(TypeKey, RemoveAll(current, v), TypeKey);
      DeleteRemovesKey(params, TypeKey);
      GetAllAppend(Delete(params, TypeKey), kept, TypeKey);
      DeleteAppend(Delete(params, TypeKey), kept, TypeKey);
      DeleteIdempotent(params, TypeKey);
    } else {
      assert (params + [(TypeKey, v)])[..|params|] == params;
    }
  }

  /** Toggling off the only selected type leaves no 'type' pair at all. */
  lemma ToggleLastType(params: Params, v: string)
    requires GetAll(params, TypeKey) == [v]
    ensures forall p | p in ToggledParams(params, v) :: p.0 != TypeKey
  {
    ToggleEffect(params, v);
    assert GetAll(ToggledParams(params, v), TypeKey) == [];
  }

  /** Toggling leaves the values of every other key as they were. */
  lemma ToggleKeepsOtherKeys(params: Params, v: string, other: string)
    requires other != TypeKey
    ensures GetAll(ToggledParams(params, v), other) == GetAll(params, other)
  {
    ToggleEffect(params, v);
    DeleteKeepsOthers(ToggledParams(params, v), TypeKey, other);
    DeleteKeepsOthers(params, TypeKey, other);
  }

  /** Toggling a type that is not selected twice gives back the selection and the other
      pairs. */
  lemma ToggleTwice(params: Params, v: string)
    requires v !in GetAll(params, TypeKey)
    ensures GetAll(ToggledParams(ToggledParams(params, v), v), TypeKey) == GetAll(params, TypeKey)
    ensures Delete(ToggledParams(ToggledParams(params, v), v), TypeKey) == Delete(params, TypeKey)
  {
    ToggleEffect(params, v);
    ToggleEffect(ToggledParams(params, v), v);
    var xs := GetAll(params, TypeKey);
    RemoveAppended(xs, v);
  }

  lemma {:induction false} RemoveAppended(xs: seq<string>, v: string)
    requires v !in xs
    ensures RemoveAll(xs + [v], v) == xs
    decreases |xs|
  {
    if xs != [] {
      assert (xs + [v])[1..] == xs[1..] + [v];
      RemoveAppended(xs[1..], v);
    }
  }

  /** `delete` of two lists joined deletes from each. */
  lemma {:induction false} DeleteAppend(a: Params, b: Params, key: string)
    ensures Delete(a + b, key) == Delete(a, key) + Delete(b, key)
    decreases |b|
  {
    if b == [] {
      assert a + b == a;
    } else {
      assert (a + b)[..|a + b| - 1] == a + b[..|b| - 1];
      DeleteAppend(a, b[..|b| - 1], key);
    }
  }

  /** Deleting twice is deleting once. */
  lemma DeleteIdempotent(params: Params, key: string)
    ensures Delete(Delete(params, key), key) == Delete(params, key)
  {
    DeleteRemovesKey(params, key);
    DeleteAbsent(Delete(params, key), key);
  }

  /** `filters.types`: which of the three filterable types are among the 'type' values. */
  datatype TypeFlags = TypeFlags(consonant: bool, vowel: bool, tone: bool)

  function Filters(params: Params): (r: TypeFlags)
    ensures r.consonant <==> (TypeKey, LetterTypeName(Consonant)) in params
    ensures r.vowel <==> (TypeKey, LetterTypeName(Vowel)) in params
    ensures r.tone <==> (TypeKey, LetterTypeName(Tone)) in params
  {
    var current := GetAll(params, TypeKey);
    TypeFlags(LetterTypeName(Consonant) in current, LetterTypeName(Vowel) in current, LetterTypeName(Tone) in current)
  }

  /** After toggling a filterable type, its flag is set exactly when it was not set
      before, and the other flags are unchanged. */
  lemma ToggleFlipsFlag(params: Params, t: LetterType)
    requires t != Other
    ensures var before := Filters(params); var after := Filters(ToggledParams(params, LetterTypeName(t)));
      && (t == Consonant ==> after == before.(consonant := !before.consonant))
      && (t == Vowel ==> after == before.(vowel := !before.vowel))
      && (t == Tone ==> after == before.(tone := !before.tone))
  {
    ToggleEffect(params, LetterTypeName(t));
  }
}
