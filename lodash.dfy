/** The two randomised collection helpers the quiz takes from lodash. Only
    their contracts are modelled: which permutation or which sample is drawn
    is left open, so every result the contract allows is a possible run. */
module Lodash {

  /** `n` elements of `s` drawn without replacement: as many as asked for,
      or all of them when `s` is shorter. */
  predicate IsSampleOf<T(==)>(r: seq<T>, s: seq<T>, n: nat) {
    && |r| == (if n <= |s| then n else |s|)
    && multiset(r) <= multiset(s)
  }

  /** `_.shuffle`: some reordering of the input. */
  method Shuffle<T(==)>(s: seq<T>) returns (r: seq<T>)
    ensures multiset(r) == multiset(s)
    ensures |r| == |s|
  {
    r :| multiset(r) == multiset(s);
    assert |r| == |multiset(r)| == |multiset(s)| == |s|;
  }

  /** `_.sampleSize`: some `n` distinct positions of the input, or all of
      them when there are fewer than `n`. */
  method SampleSize<T(==)>(s: seq<T>, n: nat) returns (r: seq<T>)
    ensures IsSampleOf(r, s, n)
  {
    var k := if n <= |s| then n else |s|;
    assert s == s[..k] + s[k..];
    assert multiset(s) == multiset(s[..k]) + multiset(s[k..]);
    assert IsSampleOf(s[..k], s, n);
    r :| IsSampleOf(r, s, n);
  }

}
