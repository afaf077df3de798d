/**
 * The word-swap augmentation: `random_swap(words, n=1)` exchanges `n` randomly chosen pairs
 * of distinct positions of a word list in place.  The random draws of
 * `random.sample(range(len(words)), 2)` are an input: `samples[t]` is the pair drawn in
 * iteration `t`.
 */
module Augment {

  /** `random.sample(range(len), 2)` returns two distinct positions of the list. */
  predicate ValidSample(len: nat, c: (int, int))
  {
    0 <= c.0 < len && 0 <= c.1 < len && c.0 != c.1
  }

  /** The number of iterations `range(n)` offers. */
  function Rounds(n: int): nat
  {
    if n > 0 then n else 0
  }

  /** The draws the loop consumes are all distinct in-range pairs. */
  predicate ValidSamples(len: nat, n: int, samples: seq<(int, int)>)
  {
    Rounds(n) <= |samples| && forall t | 0 <= t < Rounds(n) :: ValidSample(len, samples[t])
  }

  /** `words[i], words[j] = words[j], words[i]`. */
  function Swap<T>(s: seq<T>, i: nat, j: nat): (r: seq<T>)
    requires i < |s| && j < |s|
    ensures |r| == |s| && r[i] == s[j] && r[j] == s[i]
    ensures forall p | 0 <= p < |s| && p != i && p != j :: r[p] == s[p]
  {
    s[i := s[j]][j := s[i]]
  }

  /** The list after performing the swaps `cs` in order. */
  function ApplySwaps<T>(s: seq<T>, cs: seq<(int, int)>): (r: seq<T>)
    requires forall t | 0 <= t < |cs| :: ValidSample(|s|, cs[t])
    ensures |r| == |s|
    decreases |cs|
  {
    if cs == [] then s
    else
      var c := cs[|cs| - 1];
      assert ValidSample(|s|, cs[|cs| - 1]);
      Swap(ApplySwaps(s, cs[..|cs| - 1]), c.0, c.1)
  }

  /** What `random_swap(words, n)` leaves in the list, given the draws. */
  function SwapResult<T>(words: seq<T>, n: int, samples: seq<(int, int)>): seq<T>
    requires |words| >= 2 ==> ValidSamples(|words|, n, samples)
  {
    if |words| < 2 then words else ApplySwaps(words, samples[..Rounds(n)])
  }

  /** random_swap: the list is changed in place and returned. */
  method RandomSwap<T>(words: array<T>, samples: seq<(int, int)>, n: int := 1) returns (r: array<T>)
    requires words.Length >= 2 ==> ValidSamples(words.Length, n, samples)
    modifies words
    ensures r == words
    ensures words[..] == SwapResult(old(words[..]), n, samples)
  {
    if words.Length < 2 {
      return words;
    }
    var t := 0;
    while t < n
      invariant 0 <= t <= Rounds(n)
      invariant words[..] == ApplySwaps(old(words[..]), samples[..t])
    {
      var (i, j) := samples[t];
      assert samples[..t + 1][..t] == samples[..t];
      words[i], words[j] := words[j], words[i];
      t := t + 1;
    }
    assert t == Rounds(n);
    return words;
  }

  // ---------------------------------------------------------------------------
  // Lemmas
  // ---------------------------------------------------------------------------

  /** One swap rearranges the list without adding or dropping a word. */
  lemma SwapPermutes<T>(s: seq<T>, i: nat, j: nat)
    requires i < |s| && j < |s|
    ensures multiset(Swap(s, i, j)) == multiset(s)
  {
    var u := s[i := s[j]];
    assert multiset(u) == multiset(s) - multiset{s[i]} + multiset{s[j]};
    assert multiset(u[j := s[i]]) == multiset(u) - multiset{u[j]} + multiset{s[i]};
  }

  /** Swapping the same pair twice restores the list. */
  lemma SwapIsInvolution<T>(s: seq<T>, i: nat, j: nat)
    requires i < |s| && j < |s|
    ensures Swap(Swap(s, i, j), i, j) == s
  {
    var r := Swap(Swap(s, i, j), i, j);
    assert forall p | 0 <= p < |s| :: r[p] == s[p];
  }

  /** Any sequence of swaps is a permutation of the list. */
  lemma {:induction false} SwapsPermute<T>(s: seq<T>, cs: seq<(int, int)>)
    requires forall t | 0 <= t < |cs| :: ValidSample(|s|, cs[t])
    ensures multiset(ApplySwaps(s, cs)) == multiset(s)
  {
    if cs != [] {
      SwapsPermute(s, cs[..|cs| - 1]);
      var c := cs[|cs| - 1];
      SwapPermutes(ApplySwaps(s, cs[..|cs| - 1]), c.0, c.1);
    }
  }

  /**
   * A list shorter than two is returned untouched; any other list keeps its length and its
   * words, only their order changes.
   */
  lemma RandomSwapPermutes<T>(words: seq<T>, n: int, samples: seq<(int, int)>)
    requires |words| >= 2 ==> ValidSamples(|words|, n, samples)
    ensures var r := SwapResult(words, n, samples);
      (|words| < 2 ==> r == words) && |r| == |words| && multiset(r) == multiset(words)
  {
    if |words| >= 2 {
      SwapsPermute(words, samples[..Rounds(n)]);
    }
  }

  /** With no rounds (`n <= 0`) the list is unchanged. */
  lemma NoRoundsNoChange<T>(words: seq<T>, n: int, samples: seq<(int, int)>)
    requires n <= 0
    ensures SwapResult(words, n, samples) == words
  {
    assert samples[..0] == [];
  }
}
