/** The in-place shuffle used to build a scenario without replacement: a
    forward Fisher-Yates pass in which step i (for i from 1 up to the last
    position) swaps position i with a position drawn uniformly from [0, i]. */
module Shuffling {
  import opened RandomEngine

  /** The sequence with the elements at i and j exchanged. */
  function Swap<T>(s: seq<T>, i: nat, j: nat): (r: seq<T>)
    requires i < |s| && j < |s|
    ensures |r| == |s| && r[i] == s[j] && r[j] == s[i]
    ensures forall m :: 0 <= m < |s| && m != i && m != j ==> r[m] == s[m]
    ensures multiset(r) == multiset(s)
  {
    s[i := s[j]][j := s[i]]
  }

  /** The position that step i of the shuffle swaps with position i. */
  function SwapPartner(engine: Engine, seed: int, i: nat): (j: nat)
    ensures j <= i
  {
    UniformDraw(engine, seed, i, 0, i)
  }

  /** Steps i, i + 1, ..., |s| - 1 of the shuffle applied to s. */
  function ShuffleFrom<T>(s: seq<T>, engine: Engine, seed: int, i: nat): seq<T>
    decreases |s| - i
  {
    if i >= |s| then s
    else ShuffleFrom(Swap(s, i, SwapPartner(engine, seed, i)), engine, seed, i + 1)
  }

  /** The whole shuffle of s with the engine seeded by seed. */
  function Shuffled<T>(s: seq<T>, engine: Engine, seed: int): seq<T>
  {
    ShuffleFrom(s, engine, seed, 1)
  }

  /** Every tail of the shuffle only reorders: same length, same multiset. */
  lemma {:induction false} ShuffleFromIsPermutation<T>(s: seq<T>, engine: Engine, seed: int, i: nat)
    ensures |ShuffleFrom(s, engine, seed, i)| == |s|
    ensures multiset(ShuffleFrom(s, engine, seed, i)) == multiset(s)
    decreases |s| - i
  {
    if i < |s| {
      ShuffleFromIsPermutation(Swap(s, i, SwapPartner(engine, seed, i)), engine, seed, i + 1);
    }
  }

  /** A shuffle is a permutation of its input, whatever the engine and seed:
      every element appears exactly as often as before. */
  lemma ShuffledIsPermutation<T>(s: seq<T>, engine: Engine, seed: int)
    ensures |Shuffled(s, engine, seed)| == |s|
    ensures multiset(Shuffled(s, engine, seed)) == multiset(s)
  {
    ShuffleFromIsPermutation(s, engine, seed, 1);
  }

  /** Shuffles the array in place, as the library shuffle does to the copy of
      the base transactions. The new contents are the shuffle of the old ones,
      hence a permutation of them. */
  method ShuffleInPlace<T>(a: array<T>, engine: Engine, seed: int)
    modifies a
    ensures a[..] == Shuffled(old(a[..]), engine, seed)
    ensures multiset(a[..]) == multiset(old(a[..]))
  {
    var i := 1;
    while i < a.Length
      invariant 1 <= i
      invariant ShuffleFrom(a[..], engine, seed, i) == Shuffled(old(a[..]), engine, seed)
    {
      var j := SwapPartner(engine, seed, i);
      ghost var before := a[..];
      a[i], a[j] := a[j], a[i];
      assert a[..] == Swap(before, i, j);
      i := i + 1;
    }
    ShuffledIsPermutation(old(a[..]), engine, seed);
  }
}
