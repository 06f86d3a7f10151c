/** `generateUniqueRandomNumbers` of src/app/utils/generateUniqueNumbers.ts: `length` distinct
    numbers below `max`, drawn either by repeated random draws into an insertion-ordered set
    (small selections) or by a Fisher-Yates shuffle of 0..max-1 (large ones).

    Randomness is a parameter: `draws` stands for the successive `Math.random()` results, a
    draw `d` scaled to a range of `n` values giving `d % n`. */
module UniqueNumbers {
  import opened Wrappers
  import Decimal

  predicate NoDuplicates(s: seq<nat>) {
    forall i, j | 0 <= i < j < |s| :: s[i] != s[j]
  }

  predicate AllBelow(s: seq<nat>, bound: int) {
    forall k | 0 <= k < |s| :: s[k] < bound
  }

  /** The draw used at step `t`; a stream that has run out reads as 0. */
  function DrawAt(draws: seq<nat>, t: nat): nat {
    if t < |draws| then draws[t] else 0
  }

  /** The contents of the set filled by the draws, in insertion order: each draw scaled to
      0..max-1, kept the first time it occurs. */
  function Residues(draws: seq<nat>, max: nat): (r: seq<nat>)
    requires max > 0
    ensures NoDuplicates(r) && AllBelow(r, max)
    ensures |r| <= |draws|
    ensures forall x | x in r :: exists k | 0 <= k < |draws| :: draws[k] % max == x
  {
    if draws == [] then []
    else
      var prev := Residues(draws[..|draws| - 1], max);
      var n := draws[|draws| - 1] % max;
      if n in prev then prev else prev + [n]
  }

  /** Drawing more never changes what was already in the set, nor its order. */
  lemma {:induction false} ResiduesPrefix(draws: seq<nat>, k: nat, max: nat)
    requires max > 0 && k <= |draws|
    ensures Residues(draws[..k], max) <= Residues(draws, max)
    decreases |draws| - k
  {
    if k < |draws| {
      ResiduesPrefix(draws, k + 1, max);
      assert draws[..k + 1][..k] == draws[..k];
    } else {
      assert draws[..k] == draws;
    }
  }

  /** 0, 1, ..., max-1: the pool before the shuffle. */
  function Range(max: nat): (r: seq<nat>)
    ensures |r| == max && NoDuplicates(r) && AllBelow(r, max)
  {
    seq(max, k => k)
  }

  /** `[s[i], s[j]] = [s[j], s[i]]`. */
  function Swap(s: seq<nat>, i: nat, j: nat): (r: seq<nat>)
    requires i < |s| && j < |s|
    ensures |r| == |s|
  {
    s[i := s[j]][j := s[i]]
  }

  /** A swap permutes: it keeps the multiset of elements, so it keeps a sequence free of
      duplicates and under a bound. */
  lemma SwapKeeps(s: seq<nat>, i: nat, j: nat)
    requires i < |s| && j < |s|
    ensures multiset(Swap(s, i, j)) == multiset(s)
    ensures NoDuplicates(s) ==> NoDuplicates(Swap(s, i, j))
    ensures forall bound :: AllBelow(s, bound) ==> AllBelow(Swap(s, i, j), bound)
  {
    var r := Swap(s, i, j);
    if NoDuplicates(s) {
      forall a, b | 0 <= a < b < |r| ensures r[a] != r[b] {
        var a' := if a == i then j else if a == j then i else a;
        var b' := if b == i then j else if b == j then i else b;
        assert r[a] == s[a'] && r[b] == s[b'];
      }
    }
  }

  /** The Fisher-Yates loop from index `i` down to 1, the swap at `i` using draw `t`. */
  function Shuffle(pool: seq<nat>, i: int, draws: seq<nat>, t: nat): (r: seq<nat>)
    requires i < |pool|
    ensures |r| == |pool|
    decreases i
  {
    if i <= 0 then pool
    else Shuffle(Swap(pool, i, DrawAt(draws, t) % (i + 1)), i - 1, draws, t + 1)
  }

  /** The shuffle permutes the pool, whatever the draws. */
  lemma {:induction false} ShufflePermutes(pool: seq<nat>, i: int, draws: seq<nat>, t: nat)
    requires i < |pool|
    ensures multiset(Shuffle(pool, i, draws, t)) == multiset(pool)
    ensures NoDuplicates(pool) ==> NoDuplicates(Shuffle(pool, i, draws, t))
    ensures forall bound :: AllBelow(pool, bound) ==> AllBelow(Shuffle(pool, i, draws, t), bound)
    decreases i
  {
    if i > 0 {
      SwapKeeps(pool, i, DrawAt(draws, t) % (i + 1));
      ShufflePermutes(Swap(pool, i, DrawAt(draws, t) % (i + 1)), i - 1, draws, t + 1);
    }
  }

  /** Whether the draws fill the set to `length` elements: the Set branch only terminates once
      they do, so an implementation must be given enough of them. */
  predicate SetDrawsSuffice(length: int, max: int, draws: seq<nat>) {
    0 < length && 2 * length <= max ==> |Residues(draws, max)| >= length
  }

  /** What `generateUniqueRandomNumbers(length, max)` returns or throws, given the draws.
      In the Set branch, a draw stream too short to reach `length` distinct values (a case the
      source never meets, since it keeps drawing) falls back to the shuffle. */
  function GenerateUniqueRandomNumbers(length: int, max: int, draws: seq<nat>): (r: Result<seq<nat>>)
    ensures r.Failure? <==> length > max
    ensures r.Success? ==> NoDuplicates(r.value) && AllBelow(r.value, max)
    ensures r.Success? ==> |r.value| == if length <= 0 || max <= 0 then 0 else length
  {
    if length > max then
      Failure("Cannot generate " + Decimal.IntToString(length) + " unique numbers from range 0-"
              + Decimal.IntToString(max - 1))
    else if length <= 0 || max <= 0 then Success([])
    else if 2 * length <= max && |Residues(draws, max)| >= length then
      Success(Residues(draws, max)[..length])
    else
      ShufflePermutes(Range(max), max - 1, draws, 0);
      var pool := Shuffle(Range(max), max - 1, draws, 0);
      assert forall k | 0 <= k < length :: pool[..length][k] == pool[k];
      Success(pool[..length])
  }

  /** The source's function: the guards, then the Set branch or the Fisher-Yates branch. */
  method GenerateUnique(length: int, max: int, draws: seq<nat>) returns (r: Result<seq<nat>>)
    requires SetDrawsSuffice(length, max, draws)
    ensures r == GenerateUniqueRandomNumbers(length, max, draws)
  {
    if length > max {
      return Failure("Cannot generate " + Decimal.IntToString(length) + " unique numbers from range 0-"
                     + Decimal.IntToString(max - 1));
    }
    if length <= 0 || max <= 0 {
      return Success([]);
    }
    var numbers;
    if 2 * length <= max {
      numbers := DrawIntoSet(length, max, draws);
    } else {
      numbers := ShuffleAndTake(length, max, draws);
    }
    return Success(numbers);
  }

  /** The Set branch: draw until the insertion-ordered set holds `length` numbers. */
  method DrawIntoSet(length: nat, max: nat, draws: seq<nat>) returns (unique: seq<nat>)
    requires 0 < length <= max
    requires |Residues(draws, max)| >= length
    ensures unique == Residues(draws, max)[..length]
  {
    unique := [];
    var t := 0;
    assert draws[..t] == [];
    while |unique| < length
      invariant 0 <= t <= |draws|
      invariant unique == Residues(draws[..t], max)
      invariant |unique| <= length
      invariant t < |draws| || |unique| == length
      decreases |draws| - t
    {
      assert draws[..t + 1][..t] == draws[..t];
      var n := draws[t] % max;
      if n !in unique {
        unique := unique + [n];
      }
      t := t + 1;
      if t == |draws| {
        assert draws[..t] == draws;
      }
    }
    ResiduesPrefix(draws, t, max);
  }

  /** The Fisher-Yates branch: shuffle the pool 0..max-1 in place, keep its first `length`
      entries. The pool stays a permutation of 0..max-1 throughout. */
  method ShuffleAndTake(length: nat, max: nat, draws: seq<nat>) returns (numbers: seq<nat>)
    requires length <= max
    ensures numbers == Shuffle(Range(max), max - 1, draws, 0)[..length]
  {
    if max == 0 {
      return [];
    }
    var pool := new nat[max](k => k);
    assert pool[..] == Range(max);
    var i := max - 1;
    var t := 0;
    while i > 0
      invariant 0 <= i < max && t == max - 1 - i
      invariant multiset(pool[..]) == multiset(Range(max))
      invariant Shuffle(pool[..], i, draws, t) == Shuffle(Range(max), max - 1, draws, 0)
      decreases i
    {
      var j := DrawAt(draws, t) % (i + 1);
      ghost var before := pool[..];
      assert Shuffle(before, i, draws, t) == Shuffle(Swap(before, i, j), i - 1, draws, t + 1);
      SwapKeeps(before, i, j);
      pool[i], pool[j] := pool[j], pool[i];
      assert pool[..] == Swap(before, i, j);
      i := i - 1;
      t := t + 1;
    }
    numbers := pool[..length];
  }
}
