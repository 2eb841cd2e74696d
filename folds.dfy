/** JavaScript's `Array.prototype.reduce` with the callback `(a, b) => a + b`,
    in its seeded and seedless forms, against a plain structural sum. */
module Folds {

  /** The sum of a sequence of integers, as a mathematician writes it. */
  function Sum(s: seq<int>): int
  {
    if s == [] then 0 else s[0] + Sum(s[1..])
  }

  /** Appending one element adds it to the sum. */
  lemma {:induction false} SumAppend(s: seq<int>, x: int)
    ensures Sum(s + [x]) == Sum(s) + x
  {
    if s != [] {
      assert (s + [x])[1..] == s[1..] + [x];
      SumAppend(s[1..], x);
    }
  }

  /** `s.reduce((a, b) => a + b, acc)`: a left fold that starts from the seed. */
  function ReduceAdd(acc: int, s: seq<int>): (r: int)
    ensures r == acc + Sum(s)
    decreases s
  {
    if s == [] then acc else ReduceAdd(acc + s[0], s[1..])
  }

  /** `s.reduce((a, b) => a + b)` with no seed: JavaScript starts from the
      first element and throws on an empty array, hence the precondition.
      It agrees with the reduce seeded at 0, and so with the sum. */
  function ReduceAddNoSeed(s: seq<int>): (r: int)
    requires |s| > 0
    ensures r == ReduceAdd(0, s) == Sum(s)
  {
    ReduceAdd(s[0], s[1..])
  }
}
