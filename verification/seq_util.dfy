/** Small sequence facts shared by the loop models. */
module SeqUtil {

  /** The value of a count that a loop `for (i = 1; i <= n; i++)` reaches: never negative. */
  function Max0(n: int): nat {
    if n < 0 then 0 else n
  }

  /** Sum of a sequence of integers, folded from the front. */
  function Sum(s: seq<int>): int {
    if |s| == 0 then 0 else s[0] + Sum(s[1..])
  }

  /** Appending one element adds exactly that element to the sum; this is the
      step a left-to-right accumulator loop takes. */
  lemma {:induction false} SumSnoc(s: seq<int>, x: int)
    ensures Sum(s + [x]) == Sum(s) + x
  {
    if |s| == 0 {
      assert s + [x] == [x];
    } else {
      assert (s + [x])[1..] == s[1..] + [x];
      SumSnoc(s[1..], x);
    }
  }

  /** The values 1, 2, ..., n in order; empty when n <= 0. */
  function CountUpTo(n: int): (r: seq<int>)
    ensures |r| == Max0(n)
    ensures forall i :: 0 <= i < |r| ==> r[i] == i + 1
    decreases Max0(n)
  {
    if n <= 0 then [] else CountUpTo(n - 1) + [n]
  }
}
