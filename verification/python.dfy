/** The two pieces of Python semantics the decoders depend on. */
module Python {
  import opened Outcomes

  /** Python's `s[i]` on a list: a negative index counts from the end,
      anything outside `-len(s) .. len(s)-1` raises IndexError. */
  function Index(s: seq<real>, i: int): Result<real>
  {
    if 0 <= i < |s| then Ok(s[i])
    else if -|s| <= i < 0 then Ok(s[|s| + i])
    else Err(IndexError(i))
  }

  /** Python's `int(x)` on a float: rounds toward zero. */
  function Trunc(x: real): (n: int)
    ensures 0.0 <= x ==> n as real <= x < n as real + 1.0
    ensures x < 0.0 ==> n as real - 1.0 < x <= n as real
  {
    if x >= 0.0 then x.Floor else -((-x).Floor)
  }

  /** `int` undoes the conversion of an integer to a float. */
  lemma TruncOfInt(n: int)
    ensures Trunc(n as real) == n
  {
  }
}
