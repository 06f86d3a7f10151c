/** `[...xs].sort(() => Math.random() - 0.5)`, the option shuffle of
    src/app/features/MemoryGame/memoryGameStore.ts:77 and gameReducer.ts:59.

    A comparator that answers at random makes the engine's sort return some reordering of
    `xs` that depends on the draws and on the engine. It is modelled as the reordering a
    Fisher-Yates shuffle of the positions 0..|xs|-1 picks with the same draws: every
    reordering is reached by some draws, and only the reordering itself is claimed. */
module RandomOrder {
  import opened UniqueNumbers

  /** The randomness one step of a game consumes: the draws of the uniqueness helper, the
      draws that order the options, and the draw that picks a random prompt. */
  datatype Draws = Draws(unique: seq<nat>, order: seq<nat>, prompt: nat)

  /** The positions of `xs` in their new order. */
  function Positions(n: nat, draws: seq<nat>): (perm: seq<nat>)
    ensures |perm| == n && NoDuplicates(perm) && AllBelow(perm, n)
    ensures forall i | 0 <= i < n :: i in perm
  {
    if n == 0 then []
    else
      ShufflePermutes(Range(n), n - 1, draws, 0);
      var perm := Shuffle(Range(n), n - 1, draws, 0);
      RangeCovered(n, perm);
      perm
  }

  /** A permutation of 0..n-1 holds every position below `n`. */
  lemma RangeCovered(n: nat, perm: seq<nat>)
    requires multiset(perm) == multiset(Range(n))
    ensures forall i | 0 <= i < n :: i in perm
  {
    forall i | 0 <= i < n ensures i in perm {
      assert Range(n)[i] == i;
      assert i in multiset(Range(n));
    }
  }

  /** `xs` reordered by the draws. */
  function Reorder<T>(xs: seq<T>, draws: seq<nat>): (r: seq<T>)
    ensures |r| == |xs|
  {
    var perm := Positions(|xs|, draws);
    seq(|xs|, k requires 0 <= k < |xs| => xs[perm[k]])
  }

  /** Reordering keeps exactly the elements there were. */
  lemma ReorderMembers<T>(xs: seq<T>, draws: seq<nat>)
    ensures forall x :: x in Reorder(xs, draws) <==> x in xs
  {
    var perm := Positions(|xs|, draws);
    var r := Reorder(xs, draws);
    forall x | x in xs ensures x in r {
      var i :| 0 <= i < |xs| && xs[i] == x;
      assert i in perm;
      var k :| 0 <= k < |perm| && perm[k] == i;
      assert r[k] == x;
    }
  }

  /** Two places of the reordered list hold elements from two different places of `xs`, so
      any key that tells the elements of `xs` apart still tells them apart afterwards. */
  lemma ReorderKeepsDistinct<T, K>(xs: seq<T>, draws: seq<nat>, key: T -> K)
    requires forall i, j | 0 <= i < j < |xs| :: key(xs[i]) != key(xs[j])
    ensures forall a, b | 0 <= a < b < |Reorder(xs, draws)| ::
      key(Reorder(xs, draws)[a]) != key(Reorder(xs, draws)[b])
  {
    var perm := Positions(|xs|, draws);
    var r := Reorder(xs, draws);
    forall a, b | 0 <= a < b < |r| ensures key(r[a]) != key(r[b]) {
      assert r[a] == xs[perm[a]] && r[b] == xs[perm[b]];
      if perm[a] > perm[b] {
        assert key(xs[perm[b]]) != key(xs[perm[a]]);
      }
    }
  }
}
